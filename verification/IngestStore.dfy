/** The tables an ingest writes (store/sqlite/ingest.go) and the purge of vanished
    transcripts (ingest/ingest.go). One transaction is one method call. */
module IngestStore {
  import Batching

  type Path = string
  type Fingerprint = Batching.Fingerprint

  /** The rows one transcript has in the four tables keyed by source file. */
  datatype FileRows = FileRows(search: set<string>, events: set<string>, sessions: set<string>, errors: set<string>)

  /** The ingest_offsets table, grouped by source. */
  type Offsets = map<string, map<Path, Fingerprint>>

  const NO_ROWS := FileRows({}, {}, {}, {})

  /** What one source has stored: each file's rows and the fingerprints of its files. */
  datatype Db = Db(rows: imap<Path, FileRows>, offsets: map<Path, Fingerprint>)

  ghost function RowsIn(db: Db, p: Path): FileRows {
    if p in db.rows then db.rows[p] else NO_ROWS
  }

  /** A store without anything about `files`. */
  ghost function Deleted(db: Db, files: set<Path>): Db {
    Db(imap p: Path :: if p in files then NO_ROWS else RowsIn(db, p), db.offsets - files)
  }

  /** A store in which `files` have exactly the rows parsed for them, and a fingerprint
      exactly when one was taken. */
  ghost function Saved(db: Db, files: set<Path>, parsed: map<Path, FileRows>, fingerprints: map<Path, Fingerprint>): Db
    requires files <= parsed.Keys
  {
    Db(
      imap p: Path :: if p in files then parsed[p] else RowsIn(db, p),
      (db.offsets - files) + map p | p in files && p in fingerprints :: fingerprints[p])
  }

  datatype Key = Key(source: string, file: Path)
  datatype Row = Row(key: Key, data: string)
  datatype Tables = Tables(search: set<Row>, events: set<Row>, sessions: set<Row>, errors: set<Row>)

  ghost function DataOf(table: set<Row>, k: Key): set<string> {
    set r | r in table && r.key == k :: r.data
  }

  ghost function TableRows(b: Tables, k: Key): FileRows {
    FileRows(DataOf(b.search, k), DataOf(b.events, k), DataOf(b.sessions, k), DataOf(b.errors, k))
  }

  /** A batch only has rows of the files it processed. */
  predicate BatchOf(table: set<Row>, source: string, files: seq<Path>) {
    forall r :: r in table ==> r.key.source == source && r.key.file in files
  }

  function Without(table: set<Row>, source: string, files: seq<Path>): set<Row> {
    set r | r in table && !(r.key.source == source && r.key.file in files)
  }

  lemma WithoutMore(table: set<Row>, source: string, files: seq<Path>, i: nat, j: nat)
    requires i <= j <= |files|
    ensures Without(Without(table, source, files[..i]), source, files[i..j]) == Without(table, source, files[..j])
  {
  }

  function FileSet(files: seq<Path>): set<Path> {
    set p | p in files
  }

  function OffsetsOf(offsets: Offsets, source: string): map<Path, Fingerprint> {
    if source in offsets then offsets[source] else map[]
  }

  ghost function ViewOf(t: Tables, offsets: map<Path, Fingerprint>, source: string): Db {
    Db(imap p: Path :: TableRows(t, Key(source, p)), offsets)
  }

  function TablesWithout(t: Tables, source: string, files: seq<Path>): Tables {
    Tables(Without(t.search, source, files), Without(t.events, source, files), Without(t.sessions, source, files),
        Without(t.errors, source, files))
  }

  function Joined(t: Tables, u: Tables): Tables {
    Tables(t.search + u.search, t.events + u.events, t.sessions + u.sessions, t.errors + u.errors)
  }

  function Taken(files: seq<Path>, fingerprints: map<Path, Fingerprint>): map<Path, Fingerprint> {
    map p | p in files && p in fingerprints :: fingerprints[p]
  }

  predicate TablesOf(t: Tables, source: string, files: seq<Path>) {
    BatchOf(t.search, source, files) && BatchOf(t.events, source, files) && BatchOf(t.sessions, source, files) &&
        BatchOf(t.errors, source, files)
  }

  lemma DeletedRows(t: Tables, source: string, files: seq<Path>, k: Key)
    ensures TableRows(TablesWithout(t, source, files), k) == if k.source == source &&
        k.file in files then NO_ROWS else TableRows(t, k)
  {
  }

  lemma SavedRows(t: Tables, batch: Tables, source: string, files: seq<Path>, k: Key)
    requires TablesOf(batch, source, files)
    ensures TableRows(Joined(TablesWithout(t, source, files), batch), k)
         == if k.source == source && k.file in files then TableRows(batch, k) else TableRows(t, k)
  {
  }

  lemma DeletedView(t: Tables, offsets: map<Path, Fingerprint>, source: string, files: seq<Path>)
    ensures ViewOf(TablesWithout(t, source, files), offsets - FileSet(files), source)
        == Deleted(ViewOf(t, offsets, source), FileSet(files))
  {
    forall p: Path {
      DeletedRows(t, source, files, Key(source, p));
    }
  }

  lemma DeletedOther(t: Tables, offsets: map<Path, Fingerprint>, source: string, files: seq<Path>, other: string)
    requires other != source
    ensures ViewOf(TablesWithout(t, source, files), offsets, other) == ViewOf(t, offsets, other)
  {
    forall p: Path {
      DeletedRows(t, source, files, Key(other, p));
    }
  }

  ghost function ParsedRows(batch: Tables, source: string, files: seq<Path>): map<Path, FileRows> {
    map p | p in files :: TableRows(batch, Key(source, p))
  }

  lemma SavedView(t: Tables, batch: Tables, offsets: map<Path, Fingerprint>, source: string, files: seq<Path>,
      fingerprints: map<Path, Fingerprint>)
    requires TablesOf(batch, source, files)
    ensures ViewOf(Joined(TablesWithout(t, source, files), batch),
        (offsets - FileSet(files)) + Taken(files, fingerprints), source)
         == Saved(ViewOf(t, offsets, source), FileSet(files), ParsedRows(batch, source, files), fingerprints)
  {
    forall p: Path {
      SavedRows(t, batch, source, files, Key(source, p));
    }
    assert Taken(files, fingerprints) == map p | p in FileSet(files) && p in fingerprints :: fingerprints[p];
  }

  lemma SavedOther(t: Tables, batch: Tables, offsets: map<Path, Fingerprint>, source: string, files: seq<Path>,
      other: string)
    requires TablesOf(batch, source, files) && other != source
    ensures ViewOf(Joined(TablesWithout(t, source, files), batch), offsets, other) == ViewOf(t, offsets, other)
  {
    forall p: Path {
      SavedRows(t, batch, source, files, Key(other, p));
    }
  }

  const DELETE_SOURCE_FILE_CHUNK := 400

  class Store {
    var tables: Tables
    var offsets: Offsets

    ghost function View(source: string): Db
      reads this
    {
      ViewOf(tables, OffsetsOf(offsets, source), source)
    }

    /** deleteSourceFiles: in chunks, every table loses exactly this source's rows of the files. */
    method DeleteTables(source: string, files: seq<Path>)
      modifies this
      ensures tables == TablesWithout(old(tables), source, files)
      ensures OffsetsOf(offsets, source) == OffsetsOf(old(offsets), source) - FileSet(files)
      ensures forall other :: other != source ==> OffsetsOf(offsets, other) == OffsetsOf(old(offsets), other)
    {
      var start := 0;
      while start < |files|
        invariant start <= |files|
        invariant tables == TablesWithout(old(tables), source, files[..start])
        invariant OffsetsOf(offsets, source) == OffsetsOf(old(offsets), source) - FileSet(files[..start])
        invariant forall other :: other != source ==> OffsetsOf(offsets, other) == OffsetsOf(old(offsets), other)
      {
        var end := if start + DELETE_SOURCE_FILE_CHUNK < |files| then start + DELETE_SOURCE_FILE_CHUNK else |files|;
        var chunk := files[start..end];
        assert FileSet(files[..end]) == FileSet(files[..start]) + FileSet(chunk);
        WithoutMore(old(tables).search, source, files, start, end);
        WithoutMore(old(tables).events, source, files, start, end);
        WithoutMore(old(tables).sessions, source, files, start, end);
        WithoutMore(old(tables).errors, source, files, start, end);
        assert files[..end] == files[..start] + chunk;
        tables := tables.(search := Without(tables.search, source, chunk));
        tables := tables.(events := Without(tables.events, source, chunk));
        offsets := offsets[source := OffsetsOf(offsets, source) - FileSet(chunk)];
        tables := tables.(sessions := Without(tables.sessions, source, chunk));
        tables := tables.(errors := Without(tables.errors, source, chunk));
        start := end;
      }
      assert files[..start] == files;
    }

    /** DeleteSourceFiles: the files leave no trace, and no other source is touched. */
    method DeleteSourceFiles(source: string, files: seq<Path>)
      modifies this
      ensures View(source) == Deleted(old(View(source)), FileSet(files))
      ensures forall other :: other != source ==> View(other) == old(View(other))
    {
      DeletedView(tables, OffsetsOf(offsets, source), source, files);
      forall other | other != source {
        DeletedOther(tables, OffsetsOf(offsets, other), source, files, other);
      }
      DeleteTables(source, files);
    }

    /** updateIngestOffsets: a fingerprint for each processed file that has one. */
    method UpdateIngestOffsets(source: string, files: seq<Path>, fingerprints: map<Path, Fingerprint>)
      modifies this`offsets
      ensures OffsetsOf(offsets, source) == OffsetsOf(old(offsets), source) + Taken(files, fingerprints)
      ensures forall other :: other != source ==> OffsetsOf(offsets, other) == OffsetsOf(old(offsets), other)
    {
      var i := 0;
      while i < |files|
        invariant i <= |files|
        invariant OffsetsOf(offsets, source) == OffsetsOf(old(offsets), source) + Taken(files[..i], fingerprints)
        invariant forall other :: other != source ==> OffsetsOf(offsets, other) == OffsetsOf(old(offsets), other)
      {
        assert files[..i + 1] == files[..i] + [files[i]];
        if files[i] in fingerprints {
          offsets := offsets[source := OffsetsOf(offsets, source)[files[i] := fingerprints[files[i]]]];
        }
        i := i + 1;
      }
      assert files[..i] == files;
    }

    /** saveIngestImpl: in one transaction the processed files' old rows go and exactly the
        batch's rows and the run's fingerprints come in. */
    method SaveIngest(source: string, batch: Tables, processed: seq<Path>, fingerprints: map<Path, Fingerprint>)
      requires TablesOf(batch, source, processed)
      modifies this
      ensures View(source)
          == Saved(old(View(source)), FileSet(processed), ParsedRows(batch, source, processed), fingerprints)
      ensures forall other :: other != source ==> View(other) == old(View(other))
    {
      SavedView(tables, batch, OffsetsOf(offsets, source), source, processed, fingerprints);
      forall other | other != source {
        SavedOther(tables, batch, OffsetsOf(offsets, other), source, processed, other);
      }
      DeleteTables(source, processed);
      tables := tables.(events := tables.events + batch.events);
      tables := tables.(sessions := tables.sessions + batch.sessions);
      tables := tables.(errors := tables.errors + batch.errors);
      tables := tables.(search := tables.search + batch.search);
      UpdateIngestOffsets(source, processed, fingerprints);
    }
  }

  /** purgeVanished: exactly the known files that were neither fingerprinted in this run
      nor exist any more are deleted. */
  method PurgeVanished(store: Store, source: string, known: map<Path, Fingerprint>,
      present: map<Path, Fingerprint>, exists_: Path -> bool)
    modifies store
    ensures store.View(source) == Deleted(old(store.View(source)), set p | p in known && p !in present && !exists_(p))
    ensures forall other :: other != source ==> store.View(other) == old(store.View(other))
  {
    var gone: seq<Path> := [];
    var todo := known.Keys;
    while todo != {}
      invariant todo <= known.Keys
      invariant forall p :: p in gone <==> p in known && p !in todo && p !in present && !exists_(p)
      modifies {}
    {
      var file :| file in todo;
      todo := todo - {file};
      if file !in present && !exists_(file) {
        gone := gone + [file];
      }
    }
    assert FileSet(gone) == set p | p in known && p !in present && !exists_(p);
    store.DeleteSourceFiles(source, gone);
  }
}
