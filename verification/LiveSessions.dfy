/** The in-memory live sessions (live.go): the map, the lazily rebuilt index over it,
    startup loading, eviction, and the overlay of live state on stored sessions. */
module LiveSessions {
  import opened Wrappers
  import opened Records
  import opened Text
  import opened LiveState
  import EventLog

  /** liveEventKey: source and session, trimmed; "" when the event names either not. */
  function LiveEventKey(ev: LiveEvent): string {
    var source := FirstNonEmpty([ev.sourceID, ev.provider]);
    var id := FirstNonEmpty([ev.sessionID, ev.externalSessionID, ev.transcriptPath, ev.file]);
    if source == "" || id == "" then "" else source + ['\0'] + id
  }

  predicate NamesSource(ev: LiveEvent) {
    TrimSpace(ev.sourceID) != "" || TrimSpace(ev.provider) != ""
  }

  predicate NamesSession(ev: LiveEvent) {
    || TrimSpace(ev.sessionID) != "" || TrimSpace(ev.externalSessionID) != ""
    || TrimSpace(ev.transcriptPath) != "" || TrimSpace(ev.file) != ""
  }

  /** The source an event is filed under: its own, else its provider. */
  predicate IsSource(ev: LiveEvent, source: string) {
    source == Either(ev.sourceID, ev.provider)
  }

  /** The session: the first of the ids and paths it names. */
  predicate IsSession(ev: LiveEvent, id: string) {
    id == if TrimSpace(ev.sessionID) != "" then TrimSpace(ev.sessionID)
      else if TrimSpace(ev.externalSessionID) != "" then TrimSpace(ev.externalSessionID)
      else Either(ev.transcriptPath, ev.file)
  }

  /** Two events have the same key exactly if they name the same source and session, as long
      as no source holds the separator. */
  lemma KeysTellSessionsApart(a: LiveEvent, b: LiveEvent, source: string, id: string, source': string, id': string)
    requires NamesSource(a) && NamesSession(a) && NamesSource(b) && NamesSession(b)
    requires IsSource(a, source) && IsSession(a, id) && IsSource(b, source') && IsSession(b, id')
    requires '\0' !in source && '\0' !in source'
    ensures LiveEventKey(a) == LiveEventKey(b) <==> source == source' && id == id'
  {
    KeyParts(a, source, id);
    KeyParts(b, source', id');
    if LiveEventKey(a) == LiveEventKey(b) {
      Split(source, id, source', id');
    }
  }

  lemma KeyParts(ev: LiveEvent, source: string, id: string)
    requires NamesSource(ev) && NamesSession(ev) && IsSource(ev, source) && IsSession(ev, id)
    ensures LiveEventKey(ev) == source + ['\0'] + id
  {
    FirstOfTwo(ev.sourceID, ev.provider);
    FirstOfFour(ev.sessionID, ev.externalSessionID, ev.transcriptPath, ev.file);
  }

  /** Only an event that names both has a key. */
  lemma KeyIsNamed(ev: LiveEvent)
    ensures LiveEventKey(ev) != "" <==> NamesSource(ev) && NamesSession(ev)
  {
    FirstOfTwo(ev.sourceID, ev.provider);
    FirstOfFour(ev.sessionID, ev.externalSessionID, ev.transcriptPath, ev.file);
  }

  lemma Split(a: string, b: string, c: string, d: string)
    requires '\0' !in a && '\0' !in c && a + ['\0'] + b == c + ['\0'] + d
    ensures a == c && b == d
  {
    var left, right := a + ['\0'] + b, c + ['\0'] + d;
    assert left[|a|] == '\0' && right[|c|] == '\0';
    assert forall i :: 0 <= i < |c| ==> right[i] == c[i] && c[i] in c;
    assert forall i :: 0 <= i < |a| ==> left[i] == a[i] && a[i] in a;
    assert |a| == |c|;
    assert left[..|a|] == a && right[..|a|] == c;
    assert left[|a| + 1..] == b && right[|a| + 1..] == d;
  }

  // ------------------------------------------------------------ the index

  datatype Field = SessionID | ExternalID | Path

  /** Whether a state is filed under v in the index of the field. */
  predicate Has(f: Field, r: Rec, v: string) {
    v != "" && match f
               case SessionID => r.ev.sessionID == v
               case ExternalID => r.ev.externalSessionID == v
               case Path => r.ev.transcriptPath == v || r.ev.file == v
  }

  /** The positions filed under v, in order: what a plain scan finds. */
  function Positions(states: seq<Rec>, f: Field, v: string): seq<nat> {
    if states == [] then []
    else
      var n := |states| - 1;
      Positions(states[..n], f, v) + (if Has(f, states[n], v) then [n] else [])
  }

  lemma {:induction false} PositionsScan(states: seq<Rec>, f: Field, v: string)
    ensures forall j :: j in Positions(states, f, v) <==> 0 <= j < |states| && Has(f, states[j], v)
  {
    if states != [] {
      PositionsScan(states[..|states| - 1], f, v);
    }
  }

  type Index = map<string, seq<nat>>

  predicate Filed(ix: Index, states: seq<Rec>, f: Field, v: string) {
    (v in ix <==> Positions(states, f, v) != []) && (v in ix ==> ix[v] == Positions(states, f, v))
  }

  ghost predicate IndexOk(ix: Index, states: seq<Rec>, f: Field) {
    forall v :: Filed(ix, states, f, v)
  }

  /** append(index[v], i), skipped for an empty value. */
  function AddTo(ix: Index, v: string, i: nat): Index {
    if v == "" then ix else ix[v := (if v in ix then ix[v] else []) + [i]]
  }

  lemma PositionsGrow(states: seq<Rec>, n: nat, f: Field, v: string)
    requires n < |states|
    ensures Positions(states[..n + 1], f, v)
            == Positions(states[..n], f, v) + (if Has(f, states[n], v) then [n] else [])
  {
    assert states[..n + 1][..n] == states[..n];
  }

  /** Filing a state under the one value it carries keeps the index exact. */
  lemma AddValue(ix: Index, states: seq<Rec>, n: nat, f: Field, v0: string)
    requires n < |states| && IndexOk(ix, states[..n], f)
    requires forall v :: Has(f, states[n], v) <==> v != "" && v == v0
    ensures IndexOk(AddTo(ix, v0, n), states[..n + 1], f)
  {
    var ix' := AddTo(ix, v0, n);
    var before, after := states[..n], states[..n + 1];
    forall v ensures Filed(ix', after, f, v) {
      assert Filed(ix, before, f, v);
      PositionsGrow(states, n, f, v);
    }
  }

  /** ... and under both of two different values. */
  lemma AddTwoValues(ix: Index, states: seq<Rec>, n: nat, f: Field, v0: string, v1: string)
    requires n < |states| && IndexOk(ix, states[..n], f) && v0 != v1
    requires forall v :: Has(f, states[n], v) <==> v != "" && (v == v0 || v == v1)
    ensures IndexOk(AddTo(AddTo(ix, v0, n), v1, n), states[..n + 1], f)
  {
    var ix' := AddTo(AddTo(ix, v0, n), v1, n);
    var before, after := states[..n], states[..n + 1];
    forall v ensures Filed(ix', after, f, v) {
      assert Filed(ix, before, f, v);
      PositionsGrow(states, n, f, v);
    }
  }

  datatype Snapshot = Snapshot(states: seq<Rec>, bySession: Index, byExternal: Index, byPath: Index)

  /** Each state of the map once, in any order. */
  ghost predicate Enumerates(states: seq<Rec>, m: Sessions) {
    && (forall i :: 0 <= i < |states| ==> states[i] in m.Values)
    && (forall i, j :: 0 <= i < j < |states| ==> states[i] != states[j])
    && (forall k :: k in m ==> m[k] in states)
  }

  ghost predicate IsSnapshotOf(snap: Snapshot, m: Sessions) {
    && Enumerates(snap.states, m)
    && IndexOk(snap.bySession, snap.states, SessionID)
    && IndexOk(snap.byExternal, snap.states, ExternalID)
    && IndexOk(snap.byPath, snap.states, Path)
  }

  // ------------------------------------------------------------ the overlay

  /** A stored session row, as far as the overlay reads and writes it. */
  datatype Item = Item(
    sourceID: string,
    provider: string,
    sessionID: string,
    externalSessionID: string,
    transcriptPath: string,
    currentStatus: string,
    lastEventType: string,
    liveUpdatedAt: Option<int>,
    lastActivityAt: int)

  /** A state of another source does not match, unless it is of the row's provider. */
  predicate SourceMatches(r: Rec, item: Item): (matches: bool)
    ensures !matches <==> r.ev.sourceID !in {"", item.sourceID} && r.ev.provider != item.provider
  {
    r.ev.sourceID == "" || r.ev.sourceID == item.sourceID || r.ev.provider == item.provider
  }

  /** The match keys: the row's session id, external id and path against the same, and
      its external id against the live session id. */
  predicate KeyMatches(r: Rec, item: Item) {
    || Has(SessionID, r, item.sessionID)
    || Has(ExternalID, r, item.externalSessionID)
    || Has(Path, r, item.transcriptPath)
    || Has(SessionID, r, item.externalSessionID)
  }

  predicate Matches(r: Rec, item: Item) {
    SourceMatches(r, item) && KeyMatches(r, item)
  }

  /** What a naive scan over all live states picks for a row: nothing when none
      matches, else a matching state that every matching state is at or below. */
  ghost predicate NaivePick(m: Sessions, item: Item, best: Option<Rec>) {
    match best
    case None => forall k :: k in m ==> !Matches(m[k], item)
    case Some(b) => b in m.Values && Matches(b, item)
                    && forall k :: k in m && Matches(m[k], item) ==> AtOrBelow(m[k], b)
  }

  /** With distinct event ids the pick is unique, whatever order the map was read in. */
  lemma NaivePickIsUnique(m: Sessions, item: Item, a: Option<Rec>, b: Option<Rec>)
    requires forall j, k :: j in m && k in m && m[j].id == m[k].id ==> m[j] == m[k]
    requires NaivePick(m, item, a) && NaivePick(m, item, b)
    ensures a == b
  {
  }

  /** The row as it shows a live state: the state's event and time, its status if it has one,
      and the later activity; a state older than what the row shows already leaves it. */
  predicate ShowsState(item: Item, r: Rec, row: Item) {
    && row.sourceID == item.sourceID && row.provider == item.provider && row.sessionID == item.sessionID
    && row.externalSessionID == item.externalSessionID && row.transcriptPath == item.transcriptPath
    && if item.liveUpdatedAt.Some? && r.ev.at < item.liveUpdatedAt.value then row == item
       else
         && row.liveUpdatedAt == Some(r.ev.at) && row.lastEventType == r.ev.typ
         && row.lastActivityAt >= r.ev.at && row.lastActivityAt >= item.lastActivityAt
         && row.lastActivityAt in {r.ev.at, item.lastActivityAt}
         && row.currentStatus == Either(r.ev.status, item.currentStatus)
  }

  /** applyLiveEventToItem: a state older than the row's live time is ignored. */
  function ApplyLiveEvent(item: Item, r: Rec): (row: Item)
    ensures ShowsState(item, r, row)
  {
    FirstOfTwo(r.ev.status, item.currentStatus);
    if item.liveUpdatedAt.Some? && r.ev.at < item.liveUpdatedAt.value then item
    else item.(currentStatus := FirstNonEmpty([r.ev.status, item.currentStatus]),
               lastEventType := r.ev.typ,
               liveUpdatedAt := Some(r.ev.at),
               lastActivityAt := if r.ev.at > item.lastActivityAt then r.ev.at else item.lastActivityAt)
  }

  /** The best of the considered positions, by the running rule of the loop. */
  ghost predicate BestAmong(states: seq<Rec>, seen: set<nat>, item: Item, best: Option<Rec>) {
    && (forall j :: j in seen ==> j < |states|)
    && match best
       case None => forall j :: j in seen ==> !SourceMatches(states[j], item)
       case Some(b) =>
         && (exists j :: j in seen && SourceMatches(states[j], item) && states[j] == b)
         && (forall j :: j in seen && SourceMatches(states[j], item) ==> AtOrBelow(states[j], b))
  }

  predicate InRange(js: seq<nat>, n: nat) {
    forall j :: j in js ==> j < n
  }

  /** consider: runs over a list of positions, skipping those already seen. */
  method Consider(states: seq<Rec>, indices: seq<nat>, item: Item, seen0: set<nat>, best0: Option<Rec>)
    returns (seen: set<nat>, best: Option<Rec>)
    requires InRange(indices, |states|)
    requires BestAmong(states, seen0, item, best0)
    ensures seen == seen0 + (set j | j in indices) && BestAmong(states, seen, item, best)
  {
    seen, best := seen0, best0;
    var i := 0;
    while i < |indices|
      invariant i <= |indices|
      invariant seen == seen0 + (set j | j in indices[..i])
      invariant BestAmong(states, seen, item, best)
    {
      var j := indices[i];
      assert j in indices;
      assert indices[..i + 1] == indices[..i] + [j];
      i := i + 1;
      if j !in seen {
        seen := seen + {j};
        if SourceMatches(states[j], item) && (best.None? || Supersedes(states[j], best.value)) {
          best := Some(states[j]);
        }
      }
    }
    assert indices[..i] == indices;
  }

  function Lookup(ix: Index, v: string): seq<nat> {
    if v != "" && v in ix then ix[v] else []
  }

  /** One row's turn in the overlay: the pick, and the positions it used. */
  method PickFor(snap: Snapshot, ghost m: Sessions, item: Item) returns (best: Option<Rec>, used: set<nat>)
    requires IsSnapshotOf(snap, m)
    ensures NaivePick(m, item, best)
    ensures forall j :: j in used <==> 0 <= j < |snap.states| && Matches(snap.states[j], item)
  {
    LookupScan(snap.bySession, snap.states, SessionID, item.sessionID);
    LookupScan(snap.byExternal, snap.states, ExternalID, item.externalSessionID);
    LookupScan(snap.byPath, snap.states, Path, item.transcriptPath);
    LookupScan(snap.bySession, snap.states, SessionID, item.externalSessionID);
    best, used := PickFrom(snap.states, m, item,
                           Lookup(snap.bySession, item.sessionID),
                           Lookup(snap.byExternal, item.externalSessionID),
                           Lookup(snap.byPath, item.transcriptPath),
                           Lookup(snap.bySession, item.externalSessionID));
  }

  /** The positions a scan of the field finds. */
  ghost predicate Scanned(states: seq<Rec>, js: seq<nat>, f: Field, v: string) {
    forall j :: j in js <==> 0 <= j < |states| && Has(f, states[j], v)
  }

  /** The four lists, one after the other. */
  method ConsiderAll(states: seq<Rec>, item: Item, own: seq<nat>, external: seq<nat>, path: seq<nat>, cross: seq<nat>)
    returns (seen: set<nat>, best: Option<Rec>)
    requires InRange(own, |states|) && InRange(external, |states|) && InRange(path, |states|) &&
        InRange(cross, |states|)
    ensures forall j :: j in seen <==> j in own || j in external || j in path || j in cross
    ensures BestAmong(states, seen, item, best)
  {
    seen, best := Consider(states, own, item, {}, None);
    seen, best := Consider(states, external, item, seen, best);
    seen, best := Consider(states, path, item, seen, best);
    seen, best := Consider(states, cross, item, seen, best);
  }

  method PickFrom(states: seq<Rec>, ghost m: Sessions, item: Item, own: seq<nat>, external: seq<nat>,
      path: seq<nat>, cross: seq<nat>)
    returns (best: Option<Rec>, used: set<nat>)
    requires Enumerates(states, m)
    requires Scanned(states, own, SessionID, item.sessionID) &&
        Scanned(states, external, ExternalID, item.externalSessionID)
    requires Scanned(states, path, Path, item.transcriptPath) &&
        Scanned(states, cross, SessionID, item.externalSessionID)
    ensures NaivePick(m, item, best)
    ensures forall j :: j in used <==> 0 <= j < |states| && Matches(states[j], item)
  {
    var seen: set<nat>;
    seen, best := ConsiderAll(states, item, own, external, path, cross);
    assert forall j :: j in seen <==> 0 <= j < |states| && KeyMatches(states[j], item);
    used := set j | j in seen && SourceMatches(states[j], item);
    SeenIsNaive(states, m, seen, item, best);
  }

  lemma LookupScan(ix: Index, states: seq<Rec>, f: Field, v: string)
    requires IndexOk(ix, states, f)
    ensures Scanned(states, Lookup(ix, v), f, v)
  {
    assert Filed(ix, states, f, v);
    PositionsScan(states, f, v);
  }

  lemma SeenIsNaive(states: seq<Rec>, m: Sessions, seen: set<nat>, item: Item, best: Option<Rec>)
    requires Enumerates(states, m) && BestAmong(states, seen, item, best)
    requires forall j :: j in seen <==> 0 <= j < |states| && KeyMatches(states[j], item)
    ensures NaivePick(m, item, best)
  {
  }

  // ------------------------------------------------------------ the server's fields

  class LiveSessionCache {
    const key: Naming
    var liveSessions: Sessions
    var liveSnapshot: Option<Snapshot>

    /** A cached index is the one of the current map. */
    ghost predicate Valid()
      reads this
    {
      && (forall k :: k in liveSessions ==> key(liveSessions[k].ev) == k)
      && (liveSnapshot.Some? ==> IsSnapshotOf(liveSnapshot.value, liveSessions))
    }

    constructor ()
      ensures Valid() && liveSessions == map[] && liveSnapshot == None && key == LiveEventKey
    {
      key := LiveEventKey;
      liveSessions := map[];
      liveSnapshot := None;
    }

    /** Emit's section under liveMu. */
    method Record(r: Rec)
      requires Valid()
      modifies this
      ensures Valid() && liveSessions == Upsert(key, old(liveSessions), r)
      ensures liveSessions == old(liveSessions) ==> liveSnapshot == old(liveSnapshot) || liveSnapshot == None
    {
      var k := key(r.ev);
      if k != "" {
        if k !in liveSessions || Supersedes(r, liveSessions[k]) {
          liveSessions := liveSessions[k := r];
          liveSnapshot := None;
        }
      }
    }

    /** loadLiveState: the snapshot's entries, then the log after its watermark, at
        most RECENT_SCAN ids back, batch by batch. */
    method LoadLiveState(store: EventLog.BoltStore)
      requires Valid() && store.Valid() && liveSessions == map[] && liveSnapshot == None
      requires store.snapshotBucket.Some? ==>
                 forall k :: k in store.snapshotBucket.value ==> key(store.snapshotBucket.value[k].ev) == k
      modifies this
      ensures Valid()
      ensures var wm := if store.snapshotMeta.Some? && store.snapshotBucket.Some? then store.snapshotMeta else None;
              var entries := if wm.Some? then store.snapshotBucket.value else map[];
              liveSessions == Loaded(key, store.Log(), wm, entries)
    {
      var lastID := store.LastID();
      if lastID == 0 {
        return;
      }
      var watermark, entries := store.LoadLiveSnapshot();
      var after := 0;
      if entries.Some? {
        liveSessions := entries.value;
        after := watermark;
      }
      if lastID > RECENT_SCAN {
        after := if lastID - RECENT_SCAN > after then lastID - RECENT_SCAN else after;
      }
      ghost var log := store.Log();
      EventLog.IdsFit(store.bucket);
      assert lastID <= MAX_ID by { assert log[|log| - 1] in log; }
      if after >= lastID {
        BetweenEmpty(log, after, lastID);
        return;
      }
      FoldTail(store, after, lastID);
    }

    /** The batched loop of loadLiveState over the log's tail. */
    method FoldTail(store: EventLog.BoltStore, from: nat, lastID: nat)
      requires Valid() && store.Valid() && liveSnapshot == None
      requires lastID == LastId(store.Log()) && from <= lastID <= MAX_ID
      modifies this
      ensures Valid() && liveSessions == Fold(key, old(liveSessions), Between(store.Log(), from, lastID))
    {
      ghost var seed, log := liveSessions, store.Log();
      var after := from;
      BetweenEmpty(log, from, after);
      while after < lastID
        invariant Valid() && from <= after <= lastID
        invariant liveSessions == Fold(key, seed, Between(log, from, after)) && liveSnapshot == None
      {
        var batch := store.ReplayRange(after, lastID, REPLAY_BATCH);
        BatchContinues(log, from, after, lastID, batch);
        if |batch| == 0 {
          return;
        }
        FoldConcat(key, seed, Between(log, from, after), batch);
        FoldBatch(batch);
        after := batch[|batch| - 1].id;
      }
    }

    method FoldBatch(batch: seq<Rec>)
      requires Valid() && liveSnapshot == None
      modifies this
      ensures Valid() && liveSnapshot == None && liveSessions == Fold(key, old(liveSessions), batch)
    {
      var i := 0;
      while i < |batch|
        invariant i <= |batch| && Valid() && liveSnapshot == None
        invariant liveSessions == Fold(key, old(liveSessions), batch[..i])
      {
        var r := batch[i];
        assert batch[..i + 1][..i] == batch[..i];
        i := i + 1;
        var k := key(r.ev);
        if k == "" {
          continue;
        }
        if k in liveSessions && !Supersedes(r, liveSessions[k]) {
          continue;
        }
        liveSessions := liveSessions[k := r];
      }
      assert batch[..i] == batch;
    }

    /** pruneLiveSessions: evicts exactly the states older than the cutoff, and drops
        the index if it evicted any. */
    method PruneLiveSessions(enabled: bool, cutoff: int) returns (evicted: nat)
      requires Valid()
      modifies this
      ensures Valid()
      ensures !enabled ==> liveSessions == old(liveSessions) && evicted == 0
      ensures enabled ==>
        liveSessions == map k | k in old(liveSessions) && old(liveSessions)[k].ev.at >= cutoff :: old(liveSessions)[k]
      ensures evicted == |old(liveSessions)| - |liveSessions|
    {
      evicted := 0;
      if !enabled {
        return;
      }
      var rest := liveSessions.Keys;
      ghost var all := liveSessions;
      var kept := liveSessions;
      while rest != {}
        invariant rest <= kept.Keys <= all.Keys
        invariant forall k :: k in all ==> (k in kept <==> k in rest || all[k].ev.at >= cutoff)
        invariant forall k :: k in kept ==> kept[k] == all[k]
        invariant evicted == |all| - |kept|
        decreases rest
      {
        var k :| k in rest;
        rest := rest - {k};
        if kept[k].ev.at < cutoff {
          assert kept.Keys == (kept - {k}).Keys + {k};
          kept := kept - {k};
          evicted := evicted + 1;
        }
      }
      assert kept == map k | k in all && all[k].ev.at >= cutoff :: all[k];
      liveSessions := kept;
      if evicted > 0 {
        liveSnapshot := None;
      } else {
        SameSize(all, kept);
      }
    }

    /** rebuildLiveSnapshotLocked: materializes the states in map order, then files
        each under its ids and paths. */
    method RebuildSnapshot()
      requires Valid()
      modifies this`liveSnapshot
      ensures Valid() && liveSnapshot.Some?
    {
      var states: seq<Rec> := [];
      var rest := liveSessions.Keys;
      while rest != {}
        modifies {}
        invariant rest <= liveSessions.Keys
        invariant Enumerates(states, liveSessions - rest)
        decreases rest
      {
        var k :| k in rest;
        EnumerateOne(states, liveSessions, rest, k, key);
        states := states + [liveSessions[k]];
        rest := rest - {k};
      }
      assert liveSessions - rest == liveSessions;
      var snap := BuildIndexes(states);
      liveSnapshot := Some(snap);
    }

    method LiveSnapshotForRead() returns (snap: Snapshot)
      requires Valid()
      modifies this`liveSnapshot
      ensures Valid() && liveSnapshot == Some(snap) && IsSnapshotOf(snap, liveSessions)
    {
      if liveSnapshot.None? {
        RebuildSnapshot();
      }
      snap := liveSnapshot.value;
    }

    /** overlayLiveSessions: every stored row gets the state a naive scan over the live
        sessions would pick for it, and on the first page (or with overflow) the states
        no row matches are added, each once, if they pass the filter. */
    method OverlayLiveSessions(items: seq<Item>, filter: Rec -> bool, offset: nat, allowOverflow: bool)
      returns (rows: seq<Item>, picks: seq<Option<Rec>>, added: seq<Rec>)
      requires Valid()
      modifies this`liveSnapshot
      ensures Valid() && liveSessions == old(liveSessions)
      ensures |rows| == |picks| == |items|
      ensures forall i :: 0 <= i < |items| ==> NaivePick(liveSessions, items[i], picks[i])
      ensures forall i :: 0 <= i < |items| ==>
                if picks[i].Some? then ShowsState(items[i], picks[i].value, rows[i]) else rows[i] == items[i]
      ensures allowOverflow || offset == 0 ==>
                forall r :: r in added <==> r in liveSessions.Values && filter(r) && LiveOnly(items, r)
      ensures !allowOverflow && offset > 0 ==> added == []
      ensures forall i, j :: 0 <= i < j < |added| ==> added[i] != added[j]
    {
      var snap := LiveSnapshotForRead();
      var used;
      rows, picks, used := PickAll(snap, liveSessions, items);
      added := [];
      if allowOverflow || offset == 0 {
        added := Unmatched(snap.states, used, filter);
        UnmatchedAreLiveOnly(snap.states, liveSessions, items, used, filter, added);
      }
    }
  }

  method PickAll(snap: Snapshot, ghost m: Sessions, items: seq<Item>)
    returns (rows: seq<Item>, picks: seq<Option<Rec>>, used: set<nat>)
    requires IsSnapshotOf(snap, m)
    ensures |rows| == |picks| == |items|
    ensures forall i :: 0 <= i < |items| ==> NaivePick(m, items[i], picks[i])
    ensures forall i :: 0 <= i < |items| ==>
              if picks[i].Some? then ShowsState(items[i], picks[i].value, rows[i]) else rows[i] == items[i]
    ensures UsedOk(snap.states, items, used)
  {
    used := {};
    rows, picks := [], [];
    var i := 0;
    while i < |items|
      invariant i <= |items| && |rows| == |picks| == i
      invariant forall j :: 0 <= j < i ==> NaivePick(m, items[j], picks[j])
      invariant forall j :: 0 <= j < i ==>
                  if picks[j].Some? then ShowsState(items[j], picks[j].value, rows[j]) else rows[j] == items[j]
      invariant UsedOk(snap.states, items[..i], used)
    {
      var best, mine := PickFor(snap, m, items[i]);
      assert items[..i + 1] == items[..i] + [items[i]];
      UsedStep(snap.states, items[..i], items[i], used, mine);
      rows := rows + [if best.Some? then ApplyLiveEvent(items[i], best.value) else items[i]];
      picks := picks + [best];
      used := used + mine;
      i := i + 1;
    }
    assert items[..i] == items;
  }

  /** The used positions are those of the states some row matches. */
  ghost predicate UsedOk(states: seq<Rec>, items: seq<Item>, used: set<nat>) {
    forall j :: 0 <= j < |states| ==> (j in used <==> !LiveOnly(items, states[j]))
  }

  lemma UsedStep(states: seq<Rec>, items: seq<Item>, item: Item, used: set<nat>, mine: set<nat>)
    requires UsedOk(states, items, used)
    requires forall j :: j in mine <==> 0 <= j < |states| && Matches(states[j], item)
    ensures UsedOk(states, items + [item], used + mine)
  {
    forall j | 0 <= j < |states|
      ensures j in used + mine <==> !LiveOnly(items + [item], states[j])
    {
      LiveOnlySnoc(items, item, states[j]);
    }
  }

  lemma LiveOnlySnoc(items: seq<Item>, item: Item, r: Rec)
    ensures LiveOnly(items + [item], r) <==> LiveOnly(items, r) && !Matches(r, item)
  {
    assert (items + [item])[|items|] == item;
    forall i | 0 <= i < |items| ensures (items + [item])[i] == items[i] { }
  }

  lemma UnmatchedAreLiveOnly(states: seq<Rec>, m: Sessions, items: seq<Item>, used: set<nat>, filter: Rec -> bool,
      added: seq<Rec>)
    requires Enumerates(states, m)
    requires UsedOk(states, items, used)
    requires forall r :: r in added <==>
        exists j :: 0 <= j < |states| && j !in used && filter(states[j]) && states[j] == r
    ensures forall r :: r in added <==> r in m.Values && filter(r) && LiveOnly(items, r)
  {
  }

  /** No stored row matches the state. */
  predicate LiveOnly(items: seq<Item>, r: Rec) {
    forall i :: 0 <= i < |items| ==> !Matches(r, items[i])
  }

  /** The states at unused positions that pass the filter, in order. */
  method Unmatched(states: seq<Rec>, used: set<nat>, filter: Rec -> bool) returns (added: seq<Rec>)
    requires forall i, j :: 0 <= i < j < |states| ==> states[i] != states[j]
    ensures forall r :: r in added <==>
        exists j :: 0 <= j < |states| && j !in used && filter(states[j]) && states[j] == r
    ensures forall i, j :: 0 <= i < j < |added| ==> added[i] != added[j]
  {
    added := [];
    var i := 0;
    while i < |states|
      invariant i <= |states|
      invariant forall r :: r in added <==> exists j :: 0 <= j < i && j !in used && filter(states[j]) && states[j] == r
      invariant forall p, q :: 0 <= p < q < |added| ==> added[p] != added[q]
    {
      forall p | 0 <= p < |added| ensures added[p] != states[i] {
        assert added[p] in added;
        var j :| 0 <= j < i && j !in used && filter(states[j]) && states[j] == added[p];
      }
      if i !in used && filter(states[i]) {
        added := added + [states[i]];
      }
      i := i + 1;
    }
  }

  method BuildIndexes(states: seq<Rec>) returns (snap: Snapshot)
    ensures snap.states == states
    ensures IndexOk(snap.bySession, states, SessionID)
    ensures IndexOk(snap.byExternal, states, ExternalID)
    ensures IndexOk(snap.byPath, states, Path)
  {
    var bySession: Index, byExternal: Index, byPath: Index := map[], map[], map[];
    var i := 0;
    while i < |states|
      invariant i <= |states|
      invariant IndexOk(bySession, states[..i], SessionID)
      invariant IndexOk(byExternal, states[..i], ExternalID)
      invariant IndexOk(byPath, states[..i], Path)
    {
      var ev := states[i].ev;
      AddValue(bySession, states, i, SessionID, ev.sessionID);
      AddValue(byExternal, states, i, ExternalID, ev.externalSessionID);
      if ev.file != ev.transcriptPath {
        AddTwoValues(byPath, states, i, Path, ev.transcriptPath, ev.file);
      } else {
        AddValue(byPath, states, i, Path, ev.transcriptPath);
      }
      bySession := AddTo(bySession, ev.sessionID, i);
      byExternal := AddTo(byExternal, ev.externalSessionID, i);
      byPath := AddTo(byPath, ev.transcriptPath, i);
      if ev.file != ev.transcriptPath {
        byPath := AddTo(byPath, ev.file, i);
      }
      i := i + 1;
    }
    assert states[..i] == states;
    snap := Snapshot(states, bySession, byExternal, byPath);
  }

  lemma EnumerateOne(states: seq<Rec>, m: Sessions, rest: set<string>, k: string, key: Naming)
    requires k in rest && rest <= m.Keys && Enumerates(states, m - rest)
    requires forall j :: j in m ==> key(m[j].ev) == j
    ensures Enumerates(states + [m[k]], m - (rest - {k}))
  {
    var m', states' := m - (rest - {k}), states + [m[k]];
    assert k in m' && m'[k] == m[k];
    forall r | r in (m - rest).Values ensures r in m'.Values && r != m[k] {
      var j :| j in m - rest && (m - rest)[j] == r;
      assert j in m' && m'[j] == r;
    }
    forall j | j in m' ensures m'[j] in states' {
      assert j == k || j in m - rest;
    }
  }

  lemma SameSize(all: Sessions, kept: Sessions)
    requires kept.Keys <= all.Keys && |kept| == |all| && forall k :: k in kept ==> kept[k] == all[k]
    ensures kept == all
  {
    if kept.Keys != all.Keys {
      var k :| k in all.Keys && k !in kept.Keys;
      SubsetSize(kept.Keys, all.Keys - {k});
    }
  }

  lemma {:induction false} SubsetSize<T>(a: set<T>, b: set<T>)
    requires a <= b
    ensures |a| <= |b|
  {
    if a != {} {
      var x :| x in a;
      SubsetSize(a - {x}, b - {x});
    }
  }

  /** A batch read after `after` extends what was read up to there, without a gap. */
  lemma BatchContinues(log: seq<Rec>, from: nat, after: nat, lastID: nat, batch: seq<Rec>)
    requires Increasing(log) && from <= after < lastID
    requires batch == Take(Between(log, after, lastID), REPLAY_BATCH)
    ensures batch == [] ==> Between(log, from, after) == Between(log, from, lastID)
    ensures batch != [] ==>
              var last := batch[|batch| - 1].id;
              after < last <= lastID && Between(log, from, last) == Between(log, from, after) + batch
  {
    BetweenMembers(log, after, lastID);
    BetweenSplits(log, from, after, lastID);
    if batch != [] {
      var run := Between(log, after, lastID);
      var last := batch[|batch| - 1].id;
      assert batch[|batch| - 1] in run;
      BetweenSplits(log, from, after, last);
      PrefixIsBetween(log, after, lastID, |batch|);
    }
  }

  lemma {:induction false} BetweenSplits(rs: seq<Rec>, lo: nat, mid: nat, hi: nat)
    requires Increasing(rs) && lo <= mid <= hi
    ensures Between(rs, lo, hi) == Between(rs, lo, mid) + Between(rs, mid, hi)
  {
    if rs != [] {
      var front, x := rs[..|rs| - 1], rs[|rs| - 1];
      BetweenSplits(front, lo, mid, hi);
      if x.id <= mid {
        LastIsGreatest(front);
        BetweenNothing(front, mid, hi);
      }
    }
  }

  /** A prefix of a range is the range up to the prefix's last id. */
  lemma PrefixIsBetween(rs: seq<Rec>, lo: nat, hi: nat, n: nat)
    requires Increasing(rs) && 0 < n <= |Between(rs, lo, hi)|
    ensures Between(rs, lo, Between(rs, lo, hi)[n - 1].id) == Between(rs, lo, hi)[..n]
  {
    var run := Between(rs, lo, hi);
    var cut := run[n - 1].id;
    BetweenMembers(rs, lo, hi);
    assert run[n - 1] in run;
    BetweenSplits(rs, lo, cut, hi);
    BetweenMembers(rs, lo, cut);
    BetweenMembers(rs, cut, hi);
    var a, b := Between(rs, lo, cut), Between(rs, cut, hi);
    assert run == a + b;
    forall i | 0 <= i < |run| ensures run[i].id <= cut <==> i < |a| {
      if i < |a| {
        assert run[i] == a[i] && a[i] in a;
      } else {
        assert run[i] == b[i - |a|] && b[i - |a|] in b;
      }
    }
    assert n - 1 < |a|;
    assert n < |run| ==> cut < run[n].id;
    assert |a| == n;
  }
}
