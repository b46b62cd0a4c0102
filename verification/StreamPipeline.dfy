/** The parse/write pipeline of a streaming ingest (ingest/stream.go): a producer
    parses batches while one writer goroutine drains them off an unbuffered channel
    and signals once on a one-slot error channel. */
module StreamPipeline {
  import opened Wrappers
  import opened Batching

  datatype Outcome = Nil | MetadataFailed | ParseFailed | SinkFailed

  datatype Producer =
    | Meta
    | Parsing(next: nat)
    | Sending(current: nat)
    | Joining(loopFailed: bool)
    | Returned(outcome: Outcome)

  datatype Writer = NotStarted | Receiving | Sinking(batch: nat) | Stopped(failed: bool)

  /** What one call works on: its metadata result, if any, and the parse of each batch. */
  datatype Job<R> = Job(meta: Option<R>, results: seq<R>) {
    /** Everything the sink should see, in order. */
    function Whole(): seq<R> {
      (if meta.Some? then [meta.value] else []) + results
    }

    function Offset(): nat {
      if meta.Some? then 1 else 0
    }
  }

  /** `closed` is writeCh's, `errCh` the buffered signal (Some(true) carries an error),
      `handed` the batches received by the writer; the last three record what failed. */
  datatype State<R> = State(
    producer: Producer,
    writer: Writer,
    closed: bool,
    errCh: Option<bool>,
    handed: nat,
    sunk: seq<R>,
    metadataFailed: bool,
    parseFailed: bool,
    sinkFailed: bool)

  datatype Event =
    | MetaError | MetaSinkError | MetaDone
    | ParseOk | ParseError | LoopEnd
    | HandOver | SeeWriterError | Join
    | SinkOk | SinkError | Drained

  function Init<R>(): State<R> {
    State(Meta, NotStarted, false, None, 0, [], false, false, false)
  }

  /** Which events the two goroutines and the channels allow. */
  predicate Enabled<R>(job: Job<R>, s: State<R>, e: Event) {
    match e
    case MetaError => s.producer.Meta?
    case MetaSinkError => s.producer.Meta? && job.meta.Some?
    case MetaDone => s.producer.Meta?
    case ParseOk => s.producer.Parsing? && s.producer.next < |job.results|
    case ParseError => s.producer.Parsing? && s.producer.next < |job.results|
    case LoopEnd => s.producer.Parsing? && s.producer.next >= |job.results|
    case HandOver => s.producer.Sending? && s.writer.Receiving?
    case SeeWriterError => s.producer.Sending? && s.errCh.Some?
    case Join => s.producer.Joining? && s.errCh.Some?
    case SinkOk => s.writer.Sinking? && s.writer.batch < |job.results|
    case SinkError => s.writer.Sinking? && s.errCh.None?
    case Drained => s.writer.Receiving? && s.closed && s.errCh.None?
  }

  function Apply<R>(job: Job<R>, s: State<R>, e: Event): State<R>
    requires Enabled(job, s, e)
  {
    match e
    case MetaError => s.(producer := Returned(MetadataFailed), metadataFailed := true)
    case MetaSinkError => s.(producer := Returned(SinkFailed), sinkFailed := true)
    case MetaDone =>
      var sunk := if job.meta.Some? then s.sunk + [job.meta.value] else s.sunk;
      if job.results == [] then s.(producer := Returned(Nil), sunk := sunk)
      else s.(producer := Parsing(0), writer := Receiving, sunk := sunk)
    case ParseOk => s.(producer := Sending(s.producer.next))
    case ParseError => s.(producer := Joining(true), closed := true, parseFailed := true)
    case LoopEnd => s.(producer := Joining(false), closed := true)
    case HandOver => s.(producer := Parsing(s.producer.current + 1), writer := Sinking(s.producer.current),
        handed := s.handed + 1)
    case SeeWriterError => s.(producer := Returned(if s.errCh.value then SinkFailed else Nil), errCh := None)
    case Join =>
      s.(producer := Returned(if s.producer.loopFailed then ParseFailed else if s.errCh.value then SinkFailed
          else Nil), errCh := None)
    case SinkOk => s.(writer := Receiving, sunk := s.sunk + [job.results[s.writer.batch]])
    case SinkError => s.(writer := Stopped(true), errCh := Some(true), sinkFailed := true)
    case Drained => s.(writer := Stopped(false), errCh := Some(false))
  }

  /** How far the producer has got: the batches it has handed over. */
  ghost predicate ProducerInv<R>(job: Job<R>, s: State<R>) {
    match s.producer
    case Meta => s == Init()
    case Parsing(i) => !s.writer.NotStarted? && !s.closed && i == s.handed <= |job.results|
    case Sending(i) => !s.writer.NotStarted? && !s.closed && i == s.handed < |job.results|
    case Joining(failed) => !s.writer.NotStarted? && s.closed &&
        if failed then s.handed < |job.results| else s.handed == |job.results|
    case Returned(_) => (s.writer.NotStarted? || s.writer.Stopped?) && s.errCh == None && s.handed <= |job.results|
  }

  /** What the sink has seen: the metadata first, then the batches handed over, but
      for the one being written or refused. */
  ghost predicate WriterInv<R>(job: Job<R>, s: State<R>)
    requires s.handed <= |job.results|
  {
    match s.writer
    case NotStarted => (s.producer.Meta? || s.producer.Returned?) && s.errCh == None && !s.closed && s.handed == 0
    case Receiving => s.errCh == None && s.sunk == job.Whole()[..job.Offset() + s.handed]
    case Sinking(i) => s.errCh == None && i + 1 == s.handed && s.sunk == job.Whole()[..job.Offset() + i]
    case Stopped(failed) =>
      && (s.errCh == Some(failed) || s.producer.Returned?)
      && (!failed ==> s.closed)
      && (failed ==> s.handed > 0)
      && s.sunk == job.Whole()[..job.Offset() + if failed then s.handed - 1 else s.handed]
  }

  /** The error a call owes its caller: the metadata's, else the parser's, else the sink's. */
  function Verdict<R>(s: State<R>): Outcome {
    if s.metadataFailed then MetadataFailed
    else if s.parseFailed then ParseFailed
    else if s.sinkFailed then SinkFailed
    else Nil
  }

  ghost predicate OutcomeInv<R>(job: Job<R>, s: State<R>) {
    && (!s.writer.NotStarted? ==>
         && !s.metadataFailed
         && (s.parseFailed <==> s.producer in {Joining(true), Returned(ParseFailed)})
         && (s.sinkFailed <==> s.writer == Stopped(true)))
    && (s.producer.Returned? ==>
         && s.producer.outcome == Verdict(s)
         && (s.producer.outcome == Nil ==> s.sunk == job.Whole())
         && s.sunk <= job.Whole())
  }

  ghost predicate Inv<R>(job: Job<R>, s: State<R>) {
    && s.handed <= |job.results|
    && ProducerInv(job, s)
    && WriterInv(job, s)
    && OutcomeInv(job, s)
  }

  lemma StepInv<R>(job: Job<R>, s: State<R>, e: Event)
    requires Inv(job, s) && Enabled(job, s, e)
    ensures Inv(job, Apply(job, s, e))
  {
  }

  /** No deadlock: until the call returns, one of the two goroutines can move. */
  lemma SomeoneCanMove<R>(job: Job<R>, s: State<R>)
    requires Inv(job, s) && !s.producer.Returned?
    ensures exists e :: Enabled(job, s, e)
  {
    match s.producer
    case Meta =>
      assert Enabled(job, s, MetaDone);
    case Parsing(i) =>
      assert Enabled(job, s, if i < |job.results| then ParseOk else LoopEnd);
    case Sending(i) =>
      assert Enabled(job, s, if s.writer.Receiving? then HandOver else if s.writer.Sinking? then SinkError
          else SeeWriterError);
    case Joining(_) =>
      assert Enabled(job, s, if s.writer.Receiving? then Drained else if s.writer.Sinking? then SinkError else Join);
  }

  /** An upper bound on the events left. */
  function Remaining<R>(job: Job<R>, s: State<R>): int {
    var producer := match s.producer
      case Meta => 4 * |job.results| + 5
      case Parsing(i) => 4 * (|job.results| - i) + 3
      case Sending(i) => 4 * (|job.results| - i) + 2
      case Joining(_) => 1
      case Returned(_) => 0;
    producer + match s.writer
      case NotStarted => 0
      case Receiving => 1
      case Sinking(_) => 2
      case Stopped(_) => 0
  }

  lemma EventsRunOut<R>(job: Job<R>, s: State<R>, e: Event)
    requires Inv(job, s) && Enabled(job, s, e)
    ensures 0 <= Remaining(job, Apply(job, s, e)) < Remaining(job, s)
  {
  }

  predicate IsRun<R>(job: Job<R>, s: State<R>, es: seq<Event>)
    decreases |es|
  {
    es == [] || (Enabled(job, s, es[0]) && IsRun(job, Apply(job, s, es[0]), es[1..]))
  }

  function Run<R>(job: Job<R>, s: State<R>, es: seq<Event>): State<R>
    requires IsRun(job, s, es)
    decreases |es|
  {
    if es == [] then s else Run(job, Apply(job, s, es[0]), es[1..])
  }

  lemma {:induction false} RunInv<R>(job: Job<R>, s: State<R>, es: seq<Event>)
    requires Inv(job, s) && IsRun(job, s, es)
    ensures Inv(job, Run(job, s, es)) && |es| <= Remaining(job, s)
    decreases |es|
  {
    if es != [] {
      StepInv(job, s, es[0]);
      EventsRunOut(job, s, es[0]);
      RunInv(job, Apply(job, s, es[0]), es[1..]);
    } else {
      assert 0 <= Remaining(job, s);
    }
  }

  /** In every interleaving: no deadlock, at most 4 * batches + 5 events, the writer has
      stopped (or never started) on return and its signal has been read, the error is nil
      exactly when nothing failed (a parse error hides a sink error), a nil error means
      the sink saw the metadata and then every batch once in order, and any error means
      it saw a prefix of that. */
  lemma PipelineIsSafe<R>(job: Job<R>, es: seq<Event>)
    requires IsRun(job, Init(), es)
    ensures |es| <= 4 * |job.results| + 5
    ensures var s := Run(job, Init(), es);
      && (!s.producer.Returned? ==> exists e :: Enabled(job, s, e))
      && (s.producer.Returned? ==>
           && (s.writer.NotStarted? || s.writer.Stopped?) && s.errCh == None
           && s.producer.outcome == Verdict(s)
           && (s.producer.outcome == Nil ==> s.sunk == job.Whole())
           && s.sunk <= job.Whole())
  {
    assert job.Offset() <= |job.Whole()|;
    RunInv(job, Init(), es);
    var s := Run(job, Init(), es);
    if !s.producer.Returned? {
      SomeoneCanMove(job, s);
    }
  }

  lemma {:induction false} RunAppend<R>(job: Job<R>, s: State<R>, a: seq<Event>, b: seq<Event>)
    requires IsRun(job, s, a) && IsRun(job, Run(job, s, a), b)
    ensures IsRun(job, s, a + b) && Run(job, s, a + b) == Run(job, Run(job, s, a), b)
    decreases |a|
  {
    if a == [] {
      assert a + b == b;
    } else {
      RunAppend(job, Apply(job, s, a[0]), a[1..], b);
      RunOne(job, s, a[0], a[1..] + b);
      assert [a[0]] + (a[1..] + b) == a + b;
    }
  }

  lemma RunOne<R>(job: Job<R>, s: State<R>, e: Event, rest: seq<Event>)
    requires Enabled(job, s, e) && IsRun(job, Apply(job, s, e), rest)
    ensures IsRun(job, s, [e] + rest) && Run(job, s, [e] + rest) == Run(job, Apply(job, s, e), rest)
  {
    assert ([e] + rest)[1..] == rest;
  }

  lemma OneStep<R>(job: Job<R>, s: State<R>, e: Event)
    requires Enabled(job, s, e)
    ensures IsRun(job, s, [e]) && Run(job, s, [e]) == Apply(job, s, e)
  {
    RunOne(job, s, e, []);
    assert [e] + [] == [e];
  }

  lemma Steps<R>(job: Job<R>, s: State<R>, e: Event, f: Event, g: Event)
    requires Enabled(job, s, e) && Enabled(job, Apply(job, s, e), f)
    requires Enabled(job, Apply(job, Apply(job, s, e), f), g)
    ensures IsRun(job, s, [e, f, g]) && Run(job, s, [e, f, g]) == Apply(job, Apply(job, Apply(job, s, e), f), g)
  {
    var t := Apply(job, s, e);
    OneStep(job, Apply(job, t, f), g);
    RunOne(job, t, f, [g]);
    RunOne(job, s, e, [f] + [g]);
    assert [e] + ([f] + [g]) == [e, f, g];
  }

  /** The first `k` batches parsed, handed over and sunk. */
  lemma {:induction false} FirstBatches<R>(job: Job<R>, k: nat) returns (es: seq<Event>)
    requires job.results != [] && k <= |job.results|
    ensures IsRun(job, Init(), es)
    ensures var s := Run(job, Init(), es); s.producer == Parsing(k) && s.writer == Receiving && Inv(job, s)
  {
    if k == 0 {
      OneStep(job, Init(), MetaDone);
      es := [MetaDone];
      StepInv(job, Init(), MetaDone);
    } else {
      var front := FirstBatches(job, k - 1);
      var s := Run(job, Init(), front);
      Steps(job, s, ParseOk, HandOver, SinkOk);
      RunAppend(job, Init(), front, [ParseOk, HandOver, SinkOk]);
      RunInv(job, s, [ParseOk, HandOver, SinkOk]);
      es := front + [ParseOk, HandOver, SinkOk];
    }
  }

  /** What can go wrong in a call, and where. */
  datatype Fault = Nothing | InMeta | InMetaSink | InParse(batch: nat) | InSink(batch: nat)

  predicate Possible<R>(job: Job<R>, fault: Fault) {
    match fault
    case Nothing => true
    case InMeta => true
    case InMetaSink => job.meta.Some?
    case InParse(k) => k < |job.results|
    case InSink(k) => k < |job.results|
  }

  /** A call with this fault returns its error, having sunk what precedes it. */
  ghost predicate EndsWith<R>(job: Job<R>, fault: Fault, s: State<R>)
    requires Possible(job, fault)
  {
    match fault
    case Nothing => s.producer == Returned(Nil) && s.sunk == job.Whole()
    case InMeta => s.producer == Returned(MetadataFailed) && s.sunk == []
    case InMetaSink => s.producer == Returned(SinkFailed) && s.sunk == []
    case InParse(k) => s.producer == Returned(ParseFailed) && s.sunk == job.Whole()[..job.Offset() + k]
    case InSink(k) => s.producer == Returned(SinkFailed) && s.sunk == job.Whole()[..job.Offset() + k]
  }

  /** Each of them can happen, and nothing needs to. */
  lemma EveryFaultIsReported<R>(job: Job<R>, fault: Fault) returns (es: seq<Event>)
    requires Possible(job, fault)
    ensures IsRun(job, Init(), es) && EndsWith(job, fault, Run(job, Init(), es))
  {
    match fault
    case InMeta =>
      es := [MetaError];
      OneStep(job, Init(), MetaError);
    case InMetaSink =>
      es := [MetaSinkError];
      OneStep(job, Init(), MetaSinkError);
    case InParse(k) => es := ParseFails(job, k);
    case InSink(k) => es := SinkFails(job, k);
    case Nothing => es := NothingFails(job);
  }

  lemma NothingFails<R>(job: Job<R>) returns (es: seq<Event>)
    ensures IsRun(job, Init(), es) && EndsWith(job, Nothing, Run(job, Init(), es))
  {
    if job.results == [] {
      es := [MetaDone];
      OneStep(job, Init(), MetaDone);
    } else {
      var front := FirstBatches(job, |job.results|);
      var s := Run(job, Init(), front);
      Steps(job, s, LoopEnd, Drained, Join);
      RunAppend(job, Init(), front, [LoopEnd, Drained, Join]);
      es := front + [LoopEnd, Drained, Join];
    }
    PipelineIsSafe(job, es);
  }

  lemma ParseFails<R>(job: Job<R>, k: nat) returns (es: seq<Event>)
    requires k < |job.results|
    ensures IsRun(job, Init(), es) && EndsWith(job, InParse(k), Run(job, Init(), es))
  {
    var front := FirstBatches(job, k);
    var s := Run(job, Init(), front);
    Steps(job, s, ParseError, Drained, Join);
    RunAppend(job, Init(), front, [ParseError, Drained, Join]);
    es := front + [ParseError, Drained, Join];
  }

  /** The producer finds out at its next batch, or at the end. */
  lemma SinkFails<R>(job: Job<R>, k: nat) returns (es: seq<Event>)
    requires k < |job.results|
    ensures IsRun(job, Init(), es) && EndsWith(job, InSink(k), Run(job, Init(), es))
  {
    var front := FirstBatches(job, k);
    var s := Run(job, Init(), front);
    Steps(job, s, ParseOk, HandOver, SinkError);
    var failed := Apply(job, Apply(job, Apply(job, s, ParseOk), HandOver), SinkError);
    var e, f := if k + 1 < |job.results| then ParseOk else LoopEnd, if k + 1 < |job.results| then SeeWriterError else Join;
    OneStep(job, Apply(job, failed, e), f);
    RunOne(job, failed, e, [f]);
    RunAppend(job, s, [ParseOk, HandOver, SinkError], [e] + [f]);
    RunAppend(job, Init(), front, [ParseOk, HandOver, SinkError] + ([e] + [f]));
    es := front + ([ParseOk, HandOver, SinkError] + ([e] + [f]));
  }

  function Parsed<F, R>(batches: seq<seq<F>>, parse: seq<F> -> R): (results: seq<R>)
    ensures |results| == |batches|
    ensures forall i :: 0 <= i < |batches| ==> results[i] == parse(batches[i])
  {
    seq(|batches|, i requires 0 <= i < |batches| => parse(batches[i]))
  }

  /** StreamSessions under an arbitrary scheduler. Whatever it picks, the call comes
      back; without an error the sink saw the metadata and then, batch by batch and
      once each, exactly the sessions that are not known under their current
      fingerprint, in order. */
  method StreamSessions<F, R>(
      sessions: seq<F>, path: F -> string, fingerprintOf: F -> Option<Fingerprint>, sizeOf: F -> int,
      known: map<string, Fingerprint>, meta: Option<R>, parse: seq<F> -> R, maxBytes: int)
    returns (outcome: Outcome, batches: seq<seq<F>>, sunk: seq<R>, fingerprints: map<string, Fingerprint>)
    ensures Flatten(batches) == Changed(sessions, path, fingerprintOf, known)
    ensures forall i :: 0 <= i < |batches| ==> Fits(batches[i], sizeOf, maxBytes)
    ensures sunk <= Job(meta, Parsed(batches, parse)).Whole()
    ensures outcome == Nil ==> sunk == Job(meta, Parsed(batches, parse)).Whole()
    ensures forall p :: p in fingerprints ==>
        exists f :: f in sessions && path(f) == p && fingerprintOf(f) == Some(fingerprints[p])
    ensures forall f :: f in sessions && fingerprintOf(f).Some? ==> path(f) in fingerprints
  {
    var changed, skipped;
    changed, skipped, fingerprints := PartitionByFingerprint(sessions, path, fingerprintOf, known);
    batches := ChunkBySize(changed, sizeOf, maxBytes);
    var job := Job(meta, Parsed(batches, parse));
    var s: State<R> := Init();
    while !s.producer.Returned?
      invariant Inv(job, s)
      decreases Remaining(job, s)
    {
      SomeoneCanMove(job, s);
      var e :| Enabled(job, s, e);
      StepInv(job, s, e);
      EventsRunOut(job, s, e);
      s := Apply(job, s, e);
    }
    outcome, sunk := s.producer.outcome, s.sunk;
  }
}
