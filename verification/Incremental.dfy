/** Fingerprint-skipping ingest while files are being written (ingest/ingest.go,
    ingest/driver.go, ingest/stream.go): full runs, single-file runs, writers and read
    failures, in any interleaving. Ingest runs themselves are serialised
    (runtime/service.go, acquireIngest). */
module Incremental {
  import opened Wrappers
  import opened IngestStore

  /** A transcript's non-blank lines. */
  type Content = seq<string>
  datatype File = File(content: Content, fp: Fingerprint)

  /** What the provider makes of a file, and what a file that cannot be read leaves. */
  datatype Parser = Parser(parse: Content -> FileRows, unreadable: FileRows)

  /** A full run in progress. `start` is the store when it began, whose fingerprints it
      goes by, and `startErrors` the files that held an error row then; `unread` are the
      files it could not read; `quiet` says that no file has changed since. */
  datatype FullRun = FullRun(
    start: Db,
    startErrors: set<Path>,
    sessions: seq<Path>,
    stated: nat,
    present: map<Path, Fingerprint>,
    changed: set<Path>,
    parsed: map<Path, FileRows>,
    unread: set<Path>,
    sunk: set<Path>,
    checked: set<Path>,
    gone: set<Path>,
    quiet: bool)

  datatype Phase =
    | Idle
    | Full(run: FullRun)
    | Stated(path: Path, fp: Option<Fingerprint>)
    | ReadOne(file: Path, fpBefore: Option<Fingerprint>, content: Content)

  /** `errorRows` are the files whose stored rows a failed read has left. */
  datatype World = World(
    files: map<Path, File>,
    nextFp: Fingerprint,
    db: Db,
    errorRows: set<Path>,
    phase: Phase,
    failedReads: set<(Path, Fingerprint)>)

  datatype Event =
    | Write(p: Path, content: Content)
    | Remove(p: Path)
    | BeginFull(sessions: seq<Path>)
    | Stat
    | Read(p: Path, ok: bool)
    | Sink(batch: set<Path>)
    | CheckVanished(p: Path)
    | Purge
    | BeginOne(p: Path)
    | ReadFile(ok: bool)
    | SaveFile
    | Fail

  ghost function Init(): World {
    World(map[], 0, Db(imap[], map[]), {}, Idle, {})
  }

  /** Whether PartitionByFingerprint keeps a file. */
  predicate IsChanged(files: map<Path, File>, known: map<Path, Fingerprint>, p: Path) {
    p !in files || p !in known || known[p] != files[p].fp
  }

  predicate AllStated(r: FullRun) {
    r.stated >= |r.sessions|
  }

  predicate Enabled(w: World, e: Event) {
    match e
    case Write(_, _) => true
    case Remove(p) => p in w.files
    case BeginFull(_) => w.phase.Idle?
    case Stat => w.phase.Full? && !AllStated(w.phase.run)
    case Read(p, _) => w.phase.Full? && AllStated(w.phase.run) && p in w.phase.run.changed && p !in w.phase.run.parsed
    case Sink(batch) => w.phase.Full? && batch <= w.phase.run.parsed.Keys && batch !! w.phase.run.sunk
    case CheckVanished(p) =>
      w.phase.Full? && AllStated(w.phase.run) && w.phase.run.sunk == w.phase.run.changed
      && p in w.phase.run.start.offsets && p !in w.phase.run.present && p !in w.phase.run.checked
    case Purge =>
      w.phase.Full? && AllStated(w.phase.run) && w.phase.run.sunk == w.phase.run.changed
      && w.phase.run.checked == w.phase.run.start.offsets.Keys - w.phase.run.present.Keys
    case BeginOne(_) => w.phase.Idle?
    case ReadFile(_) => w.phase.Stated?
    case SaveFile => w.phase.ReadOne?
    case Fail => true
  }

  function Noisy(phase: Phase): Phase {
    if phase.Full? then Full(phase.run.(quiet := false)) else phase
  }

  function StatNext(r: FullRun, files: map<Path, File>): FullRun
    requires !AllStated(r)
  {
    var p := r.sessions[r.stated];
    r.(stated := r.stated + 1,
       present := if p in files then r.present[p := files[p].fp] else r.present,
       changed := if IsChanged(files, r.start.offsets, p) then r.changed + {p} else r.changed)
  }

  function Failed(w: World, p: Path, ok: bool): set<(Path, Fingerprint)> {
    if p in w.files && !ok then w.failedReads + {(p, w.files[p].fp)} else w.failedReads
  }

  ghost function Apply(parser: Parser, w: World, e: Event): World
    requires Enabled(w, e)
  {
    match e
    case Write(p, content) => w.(files := w.files[p := File(content, w.nextFp)], nextFp := w.nextFp + 1,
        phase := Noisy(w.phase))
    case Remove(p) => w.(files := w.files - {p}, phase := Noisy(w.phase))
    case BeginFull(sessions) =>
      w.(phase := Full(FullRun(w.db, w.errorRows, sessions, 0, map[], {}, map[], {}, {}, {}, {}, true)))
    case Stat => w.(phase := Full(StatNext(w.phase.run, w.files)))
    case Read(p, ok) =>
      var r, read := w.phase.run, p in w.files && ok;
      var rows := if read then parser.parse(w.files[p].content) else parser.unreadable;
      w.(phase := Full(r.(parsed := r.parsed[p := rows], unread := if read then r.unread else r.unread + {p})),
         failedReads := Failed(w, p, ok))
    case Sink(batch) =>
      w.(db := Saved(w.db, batch, w.phase.run.parsed, w.phase.run.present),
         errorRows := w.errorRows - batch + batch * w.phase.run.unread,
         phase := Full(w.phase.run.(sunk := w.phase.run.sunk + batch)))
    case CheckVanished(p) =>
      var r := w.phase.run;
      w.(phase := Full(r.(checked := r.checked + {p}, gone := if p in w.files then r.gone else r.gone + {p})))
    case Purge => w.(db := Deleted(w.db, w.phase.run.gone), errorRows := w.errorRows - w.phase.run.gone, phase := Idle)
    case BeginOne(p) => w.(phase := Stated(p, if p in w.files then Some(w.files[p].fp) else None))
    case ReadFile(ok) =>
      var p := w.phase.path;
      if p in w.files && ok then w.(phase := ReadOne(p, w.phase.fp, w.files[p].content)) else w.(phase := Idle)
    case SaveFile =>
      var p := w.phase.file;
      var prints := if w.phase.fpBefore.Some? then map[p := w.phase.fpBefore.value] else map[];
      if w.phase.content == [] then w.(phase := Idle)
      else w.(db := Saved(w.db, {p}, map[p := parser.parse(w.phase.content)], prints), errorRows := w.errorRows - {p},
              phase := Idle)
    case Fail => w.(phase := Idle)
  }

  ghost predicate IsRun(parser: Parser, w: World, es: seq<Event>)
    decreases |es|
  {
    es == [] || (Enabled(w, es[0]) && IsRun(parser, Apply(parser, w, es[0]), es[1..]))
  }

  ghost function Run(parser: Parser, w: World, es: seq<Event>): World
    requires IsRun(parser, w, es)
    decreases |es|
  {
    if es == [] then w else Run(parser, Apply(parser, w, es[0]), es[1..])
  }

  /** `rows` are what the file's current content parses to, or, if they come from a failed
      read, its error row, and that was a read of this very version. */
  ghost predicate Faithful(parser: Parser, w: World, p: Path, rows: FileRows, failed: bool)
    requires p in w.files
  {
    && rows == (if failed then parser.unreadable else parser.parse(w.files[p].content))
    && (failed ==> (p, w.files[p].fp) in w.failedReads)
  }

  predicate Below(m: map<Path, Fingerprint>, bound: Fingerprint) {
    forall p :: p in m ==> m[p] < bound
  }

  /** Fingerprints are never reused. */
  ghost predicate Old(w: World) {
    && (forall p :: p in w.files ==> w.files[p].fp < w.nextFp)
    && Below(w.db.offsets, w.nextFp)
    && match w.phase
       case Idle => true
       case Full(r) => Below(r.start.offsets, w.nextFp) && Below(r.present, w.nextFp)
       case Stated(_, fp) => fp.Some? ==> fp.value < w.nextFp
       case ReadOne(_, fp, _) => fp.Some? ==> fp.value < w.nextFp
  }

  /** A stored fingerprint that is the file's current one vouches for the stored rows. */
  ghost predicate Stored(parser: Parser, w: World) {
    forall p :: p in w.files && p in w.db.offsets && w.db.offsets[p] == w.files[p].fp ==>
        Faithful(parser, w, p, RowsIn(w.db, p), p in w.errorRows)
  }

  /** Rows read under a fingerprint that is still current are the file's rows. */
  ghost predicate InHand(parser: Parser, w: World) {
    match w.phase
    case Idle => true
    case Full(r) =>
      forall p :: p in r.parsed && p in r.present && p in w.files && r.present[p] == w.files[p].fp ==>
        Faithful(parser, w, p, r.parsed[p], p in r.unread)
    case Stated(_, _) => true
    case ReadOne(p, fp, content) => p in w.files && fp == Some(w.files[p].fp) ==> content == w.files[p].content
  }

  predicate Progress(r: FullRun) {
    && r.sunk <= r.parsed.Keys <= r.changed && r.unread <= r.parsed.Keys
    && r.stated <= |r.sessions|
    && (!AllStated(r) ==> r.parsed == map[] && r.checked == {})
    && r.checked <= r.start.offsets.Keys - r.present.Keys
  }

  ghost predicate Inv(parser: Parser, w: World) {
    Old(w) && Stored(parser, w) && InHand(parser, w) && (w.phase.Full? ==> Progress(w.phase.run))
  }

  lemma FilesStep(parser: Parser, w: World, e: Event)
    requires Inv(parser, w) && Enabled(w, e) && (e.Write? || e.Remove?)
    ensures Inv(parser, Apply(parser, w, e))
  {
  }

  lemma ReadStep(parser: Parser, w: World, e: Event)
    requires Inv(parser, w) && Enabled(w, e) && (e.BeginFull? || e.Stat? || e.Read? || e.CheckVanished? || e.Fail?)
    ensures Inv(parser, Apply(parser, w, e))
  {
  }

  lemma SinkStep(parser: Parser, w: World, e: Event)
    requires Inv(parser, w) && Enabled(w, e) && (e.Sink? || e.Purge?)
    ensures Inv(parser, Apply(parser, w, e))
  {
  }

  lemma FileStep(parser: Parser, w: World, e: Event)
    requires Inv(parser, w) && Enabled(w, e) && (e.BeginOne? || e.ReadFile? || e.SaveFile?)
    ensures Inv(parser, Apply(parser, w, e))
  {
  }

  lemma StepInv(parser: Parser, w: World, e: Event)
    requires Inv(parser, w) && Enabled(w, e)
    ensures Inv(parser, Apply(parser, w, e))
  {
    match e
    case Write(_, _) => FilesStep(parser, w, e);
    case Remove(_) => FilesStep(parser, w, e);
    case Sink(_) => SinkStep(parser, w, e);
    case Purge => SinkStep(parser, w, e);
    case BeginOne(_) => FileStep(parser, w, e);
    case ReadFile(_) => FileStep(parser, w, e);
    case SaveFile => FileStep(parser, w, e);
    case _ => ReadStep(parser, w, e);
  }

  lemma {:induction false} RunInv(parser: Parser, w: World, es: seq<Event>)
    requires Inv(parser, w) && IsRun(parser, w, es)
    ensures Inv(parser, Run(parser, w, es))
    decreases |es|
  {
    if es != [] {
      StepInv(parser, w, es[0]);
      RunInv(parser, Apply(parser, w, es[0]), es[1..]);
    }
  }

  /** Skipping is sound in every interleaving of writes, removals, full runs, single-file
      runs and failures: a stored fingerprint that is the file's current one implies that
      the stored rows are the parse of its current content, unless reading this very
      version has failed. */
  lemma SkippingIsSound(parser: Parser, es: seq<Event>, p: Path)
    requires IsRun(parser, Init(), es)
    ensures var w := Run(parser, Init(), es);
      p in w.files && p in w.db.offsets && w.db.offsets[p] == w.files[p].fp ==>
        && RowsIn(w.db, p) == (if p in w.errorRows then parser.unreadable else parser.parse(w.files[p].content))
        && (p in w.errorRows ==> (p, w.files[p].fp) in w.failedReads)
  {
    RunInv(parser, Init(), es);
  }

  /** What a full run has done to the store so far: the batches sunk, and nothing else. */
  ghost predicate Sunk(db: Db, errorRows: set<Path>, r: FullRun)
    requires Progress(r)
  {
    && (forall p :: p in errorRows <==> if p in r.sunk then p in r.unread else p in r.startErrors)
    && (forall p :: RowsIn(db, p) == if p in r.sunk then r.parsed[p] else RowsIn(r.start, p))
    && (forall p :: p in db.offsets <==> if p in r.sunk then p in r.present else p in r.start.offsets)
    && (forall p :: p in db.offsets ==> db.offsets[p] == if p in r.sunk then r.present[p] else r.start.offsets[p])
  }

  /** What a full run knows of files that have not changed since it began. */
  ghost predicate Partitioned(files: map<Path, File>, r: FullRun)
    requires r.stated <= |r.sessions|
  {
    && (forall p :: p in r.present ==> p in files && r.present[p] == files[p].fp)
    && (forall p :: p in r.sessions[..r.stated] && p in files ==> p in r.present)
    && (forall p :: p in r.changed <==> p in r.sessions[..r.stated] && IsChanged(files, r.start.offsets, p))
  }

  ghost predicate Vanished(files: map<Path, File>, r: FullRun) {
    && (forall p :: p in r.gone <==> p in r.checked && p !in files)
  }

  ghost predicate FullInv(w: World) {
    w.phase.Full? ==>
      && Progress(w.phase.run)
      && Sunk(w.db, w.errorRows, w.phase.run)
      && (w.phase.run.quiet ==> Partitioned(w.files, w.phase.run) && Vanished(w.files, w.phase.run))
  }

  lemma StatFull(parser: Parser, w: World)
    requires FullInv(w) && Enabled(w, Stat)
    ensures FullInv(Apply(parser, w, Stat))
  {
    var r, t := w.phase.run, StatNext(w.phase.run, w.files);
    assert r.sessions[..t.stated] == r.sessions[..r.stated] + [r.sessions[r.stated]];
  }

  lemma SinkFull(parser: Parser, w: World, batch: set<Path>)
    requires FullInv(w) && Enabled(w, Sink(batch))
    ensures FullInv(Apply(parser, w, Sink(batch)))
  {
  }

  lemma OtherFull(parser: Parser, w: World, e: Event)
    requires FullInv(w) && Enabled(w, e) && !e.Stat? && !e.Sink?
    ensures FullInv(Apply(parser, w, e))
  {
  }

  lemma {:induction false} RunFullInv(parser: Parser, w: World, es: seq<Event>)
    requires FullInv(w) && IsRun(parser, w, es)
    ensures FullInv(Run(parser, w, es))
    decreases |es|
  {
    if es != [] {
      match es[0] {
        case Stat => StatFull(parser, w);
        case Sink(batch) => SinkFull(parser, w, batch);
        case _ => OtherFull(parser, w, es[0]);
      }
      RunFullInv(parser, Apply(parser, w, es[0]), es[1..]);
    }
  }

  /** A full run that completes over quiet files, whatever was stored before and however
      its reads and writes were batched: every discovered file has its own rows and its
      current fingerprint, no known file that is gone has either, and nothing else moved. */
  lemma CompletedFullRun(parser: Parser, es: seq<Event>, p: Path)
    requires IsRun(parser, Init(), es) && Enabled(Run(parser, Init(), es), Purge)
    requires Run(parser, Init(), es).phase.run.quiet
    ensures var w := Run(parser, Init(), es); var r := w.phase.run; var t := Apply(parser, w, Purge);
      && (p in r.sessions && p in w.files ==>
          p in t.db.offsets && t.db.offsets[p] == w.files[p].fp && Faithful(parser, w, p, RowsIn(t.db, p), p in t.errorRows))
      && (p in r.start.offsets && p !in w.files ==>
          p !in t.db.offsets && RowsIn(t.db, p) == NO_ROWS && p !in t.errorRows)
      && (!(p in r.sessions && IsChanged(w.files, r.start.offsets, p)) && !(p in r.start.offsets && p !in w.files) ==>
           && RowsIn(t.db, p) == RowsIn(r.start, p) && (p in t.errorRows <==> p in r.startErrors)
           && (p in t.db.offsets <==> p in r.start.offsets)
           && (p in t.db.offsets ==> t.db.offsets[p] == r.start.offsets[p]))
  {
    RunInv(parser, Init(), es);
    RunFullInv(parser, Init(), es);
    var w := Run(parser, Init(), es);
    var r := w.phase.run;
    assert r.sessions[..r.stated] == r.sessions;
  }

  /** Exactly when such a run leaves a discovered file as it should be: when it reads the
      file, if the read succeeds; when it skips it, if what the store held of it when the
      run began does not come from a failed read, which was one of this very version. */
  lemma RightExactlyWhenRead(parser: Parser, es: seq<Event>, p: Path)
    requires IsRun(parser, Init(), es) && Enabled(Run(parser, Init(), es), Purge)
    requires var w := Run(parser, Init(), es);
      && w.phase.run.quiet && p in w.phase.run.sessions && p in w.files
      && parser.parse(w.files[p].content) != parser.unreadable
    ensures var w := Run(parser, Init(), es); var r := w.phase.run;
      var failed := if IsChanged(w.files, r.start.offsets, p) then p in r.unread else p in r.startErrors;
      && (RowsIn(Apply(parser, w, Purge).db, p) == parser.parse(w.files[p].content) <==> !failed)
      && (failed ==> (p, w.files[p].fp) in w.failedReads)
  {
    RunInv(parser, Init(), es);
    RunFullInv(parser, Init(), es);
    CompletedFullRun(parser, es, p);
    var r := Run(parser, Init(), es).phase.run;
    assert r.sessions[..r.stated] == r.sessions;
  }

  /** Incremental equals from scratch: two completed full runs over the same quiet files
      leave the same rows for every file both discovered, whatever their stores held
      when they began, if no read of a current version has failed. */
  lemma IncrementalEqualsFromScratch(parser: Parser, es: seq<Event>, fs: seq<Event>, p: Path)
    requires IsRun(parser, Init(), es) && Enabled(Run(parser, Init(), es), Purge) &&
        Run(parser, Init(), es).phase.run.quiet
    requires IsRun(parser, Init(), fs) && Enabled(Run(parser, Init(), fs), Purge) &&
        Run(parser, Init(), fs).phase.run.quiet
    requires p in Run(parser, Init(), es).phase.run.sessions && p in Run(parser, Init(), fs).phase.run.sessions
    requires p in Run(parser, Init(), es).files && p in Run(parser, Init(), fs).files
    requires Run(parser, Init(), es).files[p].content == Run(parser, Init(), fs).files[p].content
    requires (p, Run(parser, Init(), es).files[p].fp) !in Run(parser, Init(), es).failedReads
    requires (p, Run(parser, Init(), fs).files[p].fp) !in Run(parser, Init(), fs).failedReads
    ensures RowsIn(Apply(parser, Run(parser, Init(), es), Purge).db, p)
        == RowsIn(Apply(parser, Run(parser, Init(), fs), Purge).db, p)
         == parser.parse(Run(parser, Init(), es).files[p].content)
  {
    CompletedFullRun(parser, es, p);
    CompletedFullRun(parser, fs, p);
  }

  lemma RunCons(parser: Parser, w: World, e: Event, es: seq<Event>)
    requires Enabled(w, e) && IsRun(parser, Apply(parser, w, e), es)
    ensures IsRun(parser, w, [e] + es) && Run(parser, w, [e] + es) == Run(parser, Apply(parser, w, e), es)
  {
  }

  lemma {:induction false} RunAppend(parser: Parser, w: World, es: seq<Event>, fs: seq<Event>)
    requires IsRun(parser, w, es) && IsRun(parser, Run(parser, w, es), fs)
    ensures IsRun(parser, w, es + fs) && Run(parser, w, es + fs) == Run(parser, Run(parser, w, es), fs)
    decreases |es|
  {
    if es == [] {
      assert es + fs == fs;
    } else {
      RunAppend(parser, Apply(parser, w, es[0]), es[1..], fs);
      RunCons(parser, w, es[0], es[1..] + fs);
      assert [es[0]] + (es[1..] + fs) == es + fs;
    }
  }

  /** Writers change and remove other files only. */
  predicate Spares(fs: seq<Event>, p: Path) {
    forall e :: e in fs ==> (e.Write? || e.Remove?) && e.p != p
  }

  /** Two worlds with the same files. */
  predicate SameFiles(w: World, v: World) {
    w.files == v.files && w.nextFp == v.nextFp
  }

  /** What writers do does not depend on the ingest, and they leave it and a file they spare
      as they are. */
  lemma {:induction false} WritersOnly(parser: Parser, w: World, v: World, fs: seq<Event>, p: Path)
    requires SameFiles(w, v) && !v.phase.Full? && Spares(fs, p) && IsRun(parser, w, fs)
    ensures IsRun(parser, v, fs) && SameFiles(Run(parser, w, fs), Run(parser, v, fs))
    ensures var t := Run(parser, v, fs);
      && t.phase == v.phase && t.db == v.db && t.errorRows == v.errorRows && t.failedReads == v.failedReads
      && (p in v.files ==> p in t.files && t.files[p] == v.files[p])
    decreases |fs|
  {
    if fs != [] {
      assert fs[0] in fs;
      assert Spares(fs[1..], p);
      WritersOnly(parser, Apply(parser, w, fs[0]), Apply(parser, v, fs[0]), fs[1..], p);
    }
  }

  /** The store holds of `p` what a read of `f` gives, and of all others what it held. */
  ghost predicate OnlyThisFile(parser: Parser, before: World, after: World, p: Path, f: File) {
    && RowsIn(after.db, p) == parser.parse(f.content) && p !in after.errorRows
    && p in after.db.offsets && after.db.offsets[p] == f.fp
    && (forall q :: q != p ==>
         && RowsIn(after.db, q) == RowsIn(before.db, q) && (q in after.errorRows <==> q in before.errorRows)
         && (q in after.db.offsets <==> q in before.db.offsets)
         && (q in after.db.offsets ==> after.db.offsets[q] == before.db.offsets[q]))
  }

  lemma SaveStoresFile(parser: Parser, w: World, f: File)
    requires w.phase.ReadOne? && w.phase.fpBefore == Some(f.fp) && w.phase.content == f.content
    ensures var t := Apply(parser, w, SaveFile);
      && t.phase.Idle? && t.files == w.files
      && if f.content == [] then t.db == w.db && t.errorRows == w.errorRows
         else OnlyThisFile(parser, w, t, w.phase.file, f)
  {
  }

  /** The single-file counterpart of a completed full run: a file that is there, is read and
      does not change while it is, whatever writers do to others meanwhile, ends with its
      own rows under its current fingerprint, and nothing else moves; a blank one leaves the
      store as it was. */
  lemma SingleFileRun(parser: Parser, w: World, p: Path, fs: seq<Event>, gs: seq<Event>)
    requires w.phase.Idle? && p in w.files && Spares(fs, p) && Spares(gs, p)
    requires IsRun(parser, w, fs) && IsRun(parser, Run(parser, w, fs), gs)
    ensures var run := [BeginOne(p)] + (fs + ([ReadFile(true)] + (gs + [SaveFile])));
      && IsRun(parser, w, run)
      && var t := Run(parser, w, run);
        && t.phase.Idle? && t.files == Run(parser, Run(parser, w, fs), gs).files
        && p in t.files && t.files[p] == w.files[p]
        && if w.files[p].content == [] then t.db == w.db && t.errorRows == w.errorRows
           else OnlyThisFile(parser, w, t, p, w.files[p])
  {
    var f := w.files[p];
    var a := Apply(parser, w, BeginOne(p));
    WritersOnly(parser, w, a, fs, p);
    var b := Run(parser, a, fs);
    var c := Apply(parser, b, ReadFile(true));
    WritersOnly(parser, Run(parser, w, fs), c, gs, p);
    var d := Run(parser, c, gs);
    SaveStoresFile(parser, d, f);
    RunCons(parser, d, SaveFile, []);
    assert [SaveFile] + [] == [SaveFile];
    RunAppend(parser, c, gs, [SaveFile]);
    RunCons(parser, b, ReadFile(true), gs + [SaveFile]);
    RunAppend(parser, a, fs, [ReadFile(true)] + (gs + [SaveFile]));
    RunCons(parser, w, BeginOne(p), fs + ([ReadFile(true)] + (gs + [SaveFile])));
  }

  /** What a full run that goes on undisturbed keeps. */
  ghost predicate GoesOn(w: World, t: World) {
    && w.phase.Full? && t.phase.Full? && SameFiles(w, t)
    && t.phase.run.start == w.phase.run.start && t.phase.run.startErrors == w.phase.run.startErrors
    && t.phase.run.sessions == w.phase.run.sessions && t.phase.run.quiet == w.phase.run.quiet
    && (forall p :: p in t.phase.run.unread ==> p in w.phase.run.unread || p !in w.files)
  }

  function Unchecked(r: FullRun): set<Path> {
    r.start.offsets.Keys - r.present.Keys - r.checked
  }

  /** What the run does next when nothing fails. */
  ghost predicate IsNext(r: FullRun, e: Event) {
    if !AllStated(r) then e.Stat?
    else if r.changed != r.parsed.Keys then e.Read? && e.ok && e.p in r.changed - r.parsed.Keys
    else if r.sunk != r.changed then e == Sink(r.changed - r.sunk)
    else e.CheckVanished? && e.p in Unchecked(r)
  }

  lemma NextGoesOn(parser: Parser, w: World, e: Event)
    requires w.phase.Full? && Progress(w.phase.run) && IsNext(w.phase.run, e)
    ensures Enabled(w, e) && GoesOn(w, Apply(parser, w, e)) && Progress(Apply(parser, w, e).phase.run)
  {
  }

  lemma OneMissing(all: set<Path>, some: set<Path>) returns (p: Path)
    requires some < all
    ensures p in all - some
  {
    p :| p in all && p !in some;
  }

  /** A full run can always be completed: from any point on, if nothing disturbs it and no
      read of a file that is there fails. */
  lemma {:induction false} FullRunCanFinish(parser: Parser, w: World) returns (es: seq<Event>)
    requires w.phase.Full? && Progress(w.phase.run)
    ensures IsRun(parser, w, es) && GoesOn(w, Run(parser, w, es)) && Enabled(Run(parser, w, es), Purge)
    ensures forall e :: e in es ==> !e.Write? && !e.Remove?
    decreases |w.phase.run.sessions| - w.phase.run.stated, w.phase.run.changed - w.phase.run.parsed.Keys,
      w.phase.run.changed - w.phase.run.sunk, Unchecked(w.phase.run)
  {
    var r := w.phase.run;
    if AllStated(r) && r.changed == r.parsed.Keys && r.sunk == r.changed && Unchecked(r) == {} {
      assert forall p :: p in r.start.offsets.Keys - r.present.Keys ==> p in r.checked || p in Unchecked(r);
      return [];
    }
    var e := Stat;
    if AllStated(r) && r.changed != r.parsed.Keys {
      var p := OneMissing(r.changed, r.parsed.Keys);
      e := Read(p, true);
    } else if AllStated(r) && r.sunk != r.changed {
      e := Sink(r.changed - r.sunk);
    } else if AllStated(r) {
      var p :| p in Unchecked(r);
      e := CheckVanished(p);
    }
    NextGoesOn(parser, w, e);
    var rest := FullRunCanFinish(parser, Apply(parser, w, e));
    RunCons(parser, w, e, rest);
    es := [e] + rest;
  }

  /** So at any time, once the ingest under way, if any, has failed, a full run over any
      sessions can be made that begins with the store as it is and ends with every file of
      them that is there read or skipped, and no other unread. */
  lemma AFullRunCanBeMade(parser: Parser, es: seq<Event>, sessions: seq<Path>) returns (more: seq<Event>)
    requires IsRun(parser, Init(), es)
    ensures IsRun(parser, Init(), es + more) && forall e :: e in more ==> !e.Write? && !e.Remove?
    ensures var w, t := Run(parser, Init(), es), Run(parser, Init(), es + more);
      && SameFiles(w, t) && Enabled(t, Purge) && t.phase.run.quiet && t.phase.run.sessions == sessions
      && t.phase.run.start == w.db && t.phase.run.startErrors == w.errorRows
      && forall p :: p in t.phase.run.unread ==> p !in w.files
  {
    var w := Run(parser, Init(), es);
    var first := if w.phase.Idle? then [] else [Fail];
    if !w.phase.Idle? {
      RunCons(parser, w, Fail, []);
      assert [Fail] + [] == first;
    }
    var idle := Run(parser, w, first);
    var begun := Apply(parser, idle, BeginFull(sessions));
    var rest := FullRunCanFinish(parser, begun);
    RunCons(parser, idle, BeginFull(sessions), rest);
    RunAppend(parser, w, first, [BeginFull(sessions)] + rest);
    more := first + ([BeginFull(sessions)] + rest);
    RunAppend(parser, Init(), es, more);
  }

  /** And a file with a stored fingerprint that is removed is purged by such a run, whatever
      else it discovers. */
  lemma AVanishedFileIsPurged(parser: Parser, es: seq<Event>, p: Path, sessions: seq<Path>) returns (more: seq<Event>)
    requires IsRun(parser, Init(), es)
    requires p in Run(parser, Init(), es).files && p in Run(parser, Init(), es).db.offsets
    ensures IsRun(parser, Init(), (es + [Remove(p)]) + (more + [Purge]))
    ensures forall e :: e in more ==> !e.Write? && !e.Remove?
    ensures var t := Run(parser, Init(), (es + [Remove(p)]) + (more + [Purge]));
      && t.phase.Idle? && t.files == Run(parser, Init(), es).files - {p}
      && p !in t.db.offsets && RowsIn(t.db, p) == NO_ROWS && p !in t.errorRows
  {
    var w := Run(parser, Init(), es);
    RunCons(parser, w, Remove(p), []);
    RunAppend(parser, Init(), es, [Remove(p)]);
    var removed := es + [Remove(p)];
    more := AFullRunCanBeMade(parser, removed, sessions);
    CompletedFullRun(parser, removed + more, p);
    RunCons(parser, Run(parser, Init(), removed + more), Purge, []);
    RunAppend(parser, Init(), removed + more, [Purge]);
    assert (removed + more) + [Purge] == removed + (more + [Purge]);
  }

  /** The first full run over one file, whose read succeeds or fails. */
  lemma FirstRun(parser: Parser, w: World, p: Path, ok: bool) returns (es: seq<Event>)
    requires w.phase.Idle? && p in w.files && w.db.offsets == map[]
    ensures IsRun(parser, w, es) && (forall e :: e in es ==> !e.Write? && !e.Remove?)
    ensures var t := Run(parser, w, es);
      && t.phase.Idle? && t.files == w.files && t.db.offsets == map[p := w.files[p].fp]
      && RowsIn(t.db, p) == if ok then parser.parse(w.files[p].content) else parser.unreadable
  {
    var w1 := Apply(parser, w, BeginFull([p]));
    var w2 := Apply(parser, w1, Stat);
    var w3 := Apply(parser, w2, Read(p, ok));
    var w4 := Apply(parser, w3, Sink({p}));
    assert w4.phase.run.sunk == w4.phase.run.changed == {p};
    var w5 := Apply(parser, w4, Purge);
    assert w5.db.offsets == map[p := w.files[p].fp];
    RunCons(parser, w4, Purge, []);
    RunCons(parser, w3, Sink({p}), [Purge]);
    RunCons(parser, w2, Read(p, ok), [Sink({p})] + [Purge]);
    RunCons(parser, w1, Stat, [Read(p, ok)] + ([Sink({p})] + [Purge]));
    RunCons(parser, w, BeginFull([p]), [Stat] + ([Read(p, ok)] + ([Sink({p})] + [Purge])));
    es := [BeginFull([p])] + ([Stat] + ([Read(p, ok)] + ([Sink({p})] + [Purge])));
  }

  /** A full run that finds its one file under the stored fingerprint. */
  lemma SkippingRun(parser: Parser, w: World, p: Path) returns (es: seq<Event>)
    requires w.phase.Idle? && p in w.files && w.db.offsets == map[p := w.files[p].fp]
    ensures IsRun(parser, w, es) && es != [] && es[0] == BeginFull([p])
    ensures var t := Run(parser, w, es);
      t.phase.Idle? && t.files == w.files && t.db.offsets == w.db.offsets && RowsIn(t.db, p) == RowsIn(w.db, p)
  {
    var w1 := Apply(parser, w, BeginFull([p]));
    var w2 := Apply(parser, w1, Stat);
    assert w2.phase.run.changed == {} == w2.phase.run.sunk;
    var w3 := Apply(parser, w2, Purge);
    RunCons(parser, w2, Purge, []);
    RunCons(parser, w1, Stat, [Purge]);
    RunCons(parser, w, BeginFull([p]), [Stat] + [Purge]);
    es := [BeginFull([p])] + ([Stat] + [Purge]);
  }

  /** The exception is real, and full runs do not repair it: one failed read of a file
      that is there throughout leaves its error row under its current fingerprint, and the
      next full run skips it. */
  lemma AFailedReadSticks(parser: Parser, p: Path, content: Content) returns (es: seq<Event>, fs: seq<Event>)
    ensures IsRun(parser, Init(), es + fs) && fs != [] && fs[0] == BeginFull([p])
    ensures forall e :: e in es && e.Write? ==> e == Write(p, content)
    ensures var w := Run(parser, Init(), es + fs);
      w.phase.Idle? && w.files == map[p := File(content, 0)] && w.db.offsets == map[p := 0] &&
          RowsIn(w.db, p) == parser.unreadable
  {
    var w := Apply(parser, Init(), Write(p, content));
    var first := FirstRun(parser, w, p, false);
    RunCons(parser, Init(), Write(p, content), first);
    es := [Write(p, content)] + first;
    fs := SkippingRun(parser, Run(parser, w, first), p);
    RunAppend(parser, Init(), es, fs);
  }
}
