/** The daemon's run loop (runtime/run.go:118-224, 270-309): the pending and dirty file
    sets, the debounce timer, pause and resume, and the bounded job queue. */
module RunLoop {
  type Path = string

  datatype ServiceState = Running | Paused

  /** A timer is off, counting down, or has expired with its expiry not yet received. */
  datatype Timer = Off | Armed | Expired

  datatype Job = FileJob(paths: set<Path>) | FullJob(source: string)

  const INGEST_QUEUE_SIZE := 64

  /** What the loop has promised and what it has done about it. */
  datatype Happening = Accepted(path: Path) | Sent(paths: set<Path>)

  function Adjust(owed: set<Path>, h: Happening): set<Path> {
    match h
    case Accepted(p) => owed + {p}
    case Sent(paths) => owed - paths
  }

  /** The paths the first `n` happenings accept and send in no file job since. */
  function Owed(history: seq<Happening>, n: nat): set<Path>
    requires n <= |history|
  {
    if n == 0 then {} else Adjust(Owed(history, n - 1), history[n - 1])
  }

  /** The paths accepted by the first `n` happenings. */
  function Accepts(history: seq<Happening>, n: nat): seq<Path>
    requires n <= |history|
  {
    if n == 0 then [] else Accepts(history, n - 1) + if history[n - 1].Accepted? then [history[n - 1].path] else []
  }

  lemma {:induction false} SameBefore(history: seq<Happening>, h: Happening, n: nat)
    requires n <= |history|
    ensures Owed(history + [h], n) == Owed(history, n) && Accepts(history + [h], n) == Accepts(history, n)
  {
    if n > 0 {
      SameBefore(history, h, n - 1);
    }
  }

  lemma OneMore(history: seq<Happening>, h: Happening)
    ensures Owed(history + [h], |history| + 1) == Adjust(Owed(history, |history|), h)
    ensures Accepts(history + [h], |history| + 1) == Accepts(history, |history|) + if h.Accepted? then [h.path] else []
  {
    SameBefore(history, h, |history|);
  }

  /** Happening `i` accepts `p`, and no job sent later, among the first `n`, contains it. */
  ghost predicate Waiting(history: seq<Happening>, n: nat, i: nat, p: Path)
    requires n <= |history|
  {
    i < n && history[i] == Accepted(p) && forall j :: i < j < n && history[j].Sent? ==> p !in history[j].paths
  }

  /** A path is owed exactly when some acceptance of it has seen no job with it since. */
  lemma {:induction false} OwedIsWaiting(history: seq<Happening>, n: nat, p: Path)
    requires n <= |history|
    ensures p in Owed(history, n) <==> exists i :: Waiting(history, n, i, p)
  {
    if n > 0 {
      var m := n - 1;
      var last := history[m];
      OwedIsWaiting(history, m, p);
      if i: nat :| Waiting(history, m, i, p) && !(last.Sent? && p in last.paths) {
        assert Waiting(history, n, i, p);
      }
      if i: nat :| Waiting(history, n, i, p) && i < m {
        assert Waiting(history, m, i, p);
      }
      if last == Accepted(p) {
        assert Waiting(history, n, m, p);
      }
    }
  }

  /** The run loop's variables, with every job taken off the queue so far, the history of
      acceptances and sends, and the number of automatic jobs dropped. */
  datatype Loop = Loop(
    state: ServiceState,
    pending: set<Path>,
    dirty: set<Path>,
    debounceActive: bool,
    timer: Timer,
    queue: seq<Job>,
    taken: seq<Job>,
    history: seq<Happening>,
    dropped: nat)

  function Start(): Loop {
    Loop(Running, {}, {}, false, Off, [], [], [], 0)
  }

  /** Every job put on the queue so far, in order. */
  function Jobs(l: Loop): seq<Job> {
    l.taken + l.queue
  }

  /** The path sets of the file jobs among the first `n`. */
  function FileJobs(jobs: seq<Job>, n: nat): seq<set<Path>>
    requires n <= |jobs|
  {
    if n == 0 then [] else FileJobs(jobs, n - 1) + if jobs[n - 1].FileJob? then [jobs[n - 1].paths] else []
  }

  /** The path sets the first `n` happenings send. */
  function Sends(history: seq<Happening>, n: nat): seq<set<Path>>
    requires n <= |history|
  {
    if n == 0 then [] else Sends(history, n - 1) + if history[n - 1].Sent? then [history[n - 1].paths] else []
  }

  /** What a queue holds once full jobs for the first `n` sources have been offered to it. */
  function WithFullJobs(queue: seq<Job>, sources: seq<string>, n: nat): (after: seq<Job>)
    requires n <= |sources| && |queue| <= INGEST_QUEUE_SIZE
    ensures queue <= after
    ensures |after| == if |queue| + n <= INGEST_QUEUE_SIZE then |queue| + n else INGEST_QUEUE_SIZE
  {
    var room := INGEST_QUEUE_SIZE - |queue|;
    queue + seq(if n <= room then n else room, i requires 0 <= i < n => FullJob(sources[i]))
  }

  lemma OneMoreFullJob(queue: seq<Job>, sources: seq<string>, n: nat)
    requires n < |sources| && |queue| <= INGEST_QUEUE_SIZE
    ensures var before := WithFullJobs(queue, sources, n);
      WithFullJobs(queue, sources, n + 1) == if |before| < INGEST_QUEUE_SIZE then before + [FullJob(sources[n])] else before
  {
  }

  /** What a flush of `files` does to the dirty set and the queue: everything goes out as
      one job at the end of the queue, or, exactly when the queue is full, stays dirty. */
  predicate Flushed(files: set<Path>, queue: seq<Job>, dirty: set<Path>, after: seq<Job>) {
    if files != {} && |queue| < INGEST_QUEUE_SIZE then dirty == {} && after == queue + [FileJob(files)]
    else dirty == files && after == queue
  }

  /** After a resume dirty files are left exactly when there was something to flush and the
      full jobs of the resume left no room for it. */
  lemma StrandedExactlyWhenFull(files: set<Path>, queue: seq<Job>, sources: seq<string>, dirty: set<Path>, after: seq<Job>)
    requires |queue| <= INGEST_QUEUE_SIZE && Flushed(files, WithFullJobs(queue, sources, |sources|), dirty, after)
    ensures dirty != {} <==> files != {} && |queue| + |sources| >= INGEST_QUEUE_SIZE
  {
  }

  function Flush(l: Loop): Loop {
    var files := l.pending + l.dirty;
    if files != {} && |l.queue| < INGEST_QUEUE_SIZE then
      l.(pending := {}, dirty := {}, queue := l.queue + [FileJob(files)], history := l.history + [Sent(files)])
    else l.(pending := {}, dirty := files)
  }

  function Stopped(l: Loop): Loop {
    if l.debounceActive then l.(timer := Off, debounceActive := false) else l
  }

  function Rearmed(l: Loop): Loop {
    if l.dirty != {} then l.(timer := Armed, debounceActive := true) else l
  }

  function AllOffered(l: Loop, sources: seq<string>): Loop
    requires |l.queue| <= INGEST_QUEUE_SIZE
  {
    var queue := WithFullJobs(l.queue, sources, |sources|);
    l.(queue := queue, dropped := l.dropped + |sources| - (|queue| - |l.queue|))
  }

  function Added(l: Loop, path: Path): Loop {
    l.(pending := l.pending + {path}, history := l.history + [Accepted(path)], timer := Armed, debounceActive := true)
  }

  /** What the loop's select can receive, and what happens around it. */
  datatype Event =
    | ConfigChanged(rebuilt: bool)
    | PauseRequested
    | ResumeRequested
    | FileEvent(path: Path, ingestible: bool)
    | TimerReceived
    | TimerExpires
    | Ticked
    | JobTaken
    | Triggered(source: string)

  /** One event; one that cannot happen now is passed over. */
  function Step(l: Loop, e: Event, sources: seq<string>): (after: Loop)
    requires |l.queue| <= INGEST_QUEUE_SIZE
    ensures |after.queue| <= INGEST_QUEUE_SIZE
  {
    match e
    case ConfigChanged(rebuilt) => if rebuilt then AllOffered(l, sources) else l
    case PauseRequested => l.(state := Paused)
    case ResumeRequested =>
      if l.state == Paused then Flush(Stopped(AllOffered(l.(state := Running), sources))) else l
    case FileEvent(path, ingestible) => if l.state == Running && ingestible then Added(l, path) else l
    case TimerReceived =>
      if l.timer != Expired then l
      else if l.state == Paused then l.(timer := Off)
      else Rearmed(Flush(l.(timer := Off, debounceActive := false)))
    case TimerExpires => if l.timer == Armed then l.(timer := Expired) else l
    case Ticked => if l.state == Running then AllOffered(l, sources) else l
    case JobTaken => if l.queue != [] then l.(taken := l.taken + [l.queue[0]], queue := l.queue[1..]) else l
    case Triggered(source) => if |l.queue| < INGEST_QUEUE_SIZE then l.(queue := l.queue + [FullJob(source)]) else l
  }

  /** The loop after the first `n` events. */
  function After(sources: seq<string>, events: seq<Event>, n: nat): (l: Loop)
    requires n <= |events|
    ensures |l.queue| <= INGEST_QUEUE_SIZE
  {
    if n == 0 then Start() else Step(After(sources, events, n - 1), events[n - 1], sources)
  }

  /** What is owed is pending or dirty, and what is sent is on the queue or off it. */
  predicate Books(l: Loop) {
    && Owed(l.history, |l.history|) == l.pending + l.dirty
    && FileJobs(Jobs(l), |Jobs(l)|) == Sends(l.history, |l.history|)
    && |l.queue| <= INGEST_QUEUE_SIZE
  }

  /** While running, pending files have a timer to flush them. */
  predicate TimerOk(l: Loop) {
    && (l.state == Running && l.pending != {} ==> l.timer != Off)
    && (l.timer != Off ==> l.debounceActive)
    && (l.state == Running && l.debounceActive ==> l.timer != Off)
  }

  lemma {:induction false} SameJobs(jobs: seq<Job>, more: seq<Job>, n: nat)
    requires n <= |jobs| && jobs <= more
    ensures FileJobs(more, n) == FileJobs(jobs, n)
  {
    if n > 0 {
      SameJobs(jobs, more, n - 1);
    }
  }

  lemma OneMoreJob(jobs: seq<Job>, job: Job)
    ensures var all := jobs + [job];
      FileJobs(all, |all|) == FileJobs(jobs, |jobs|) + if job.FileJob? then [job.paths] else []
  {
    SameJobs(jobs, jobs + [job], |jobs|);
  }

  lemma {:induction false} FullJobsAreNoFileJobs(taken: seq<Job>, queue: seq<Job>, sources: seq<string>, n: nat)
    requires n <= |sources| && |queue| <= INGEST_QUEUE_SIZE
    ensures var before, after := taken + queue, taken + WithFullJobs(queue, sources, n);
      before <= after && FileJobs(after, |after|) == FileJobs(before, |before|)
  {
    if n == 0 {
      assert WithFullJobs(queue, sources, 0) == queue;
    } else {
      FullJobsAreNoFileJobs(taken, queue, sources, n - 1);
      OneMoreFullJob(queue, sources, n - 1);
      AppendFullJob(taken, WithFullJobs(queue, sources, n - 1), sources[n - 1]);
    }
  }

  lemma AppendFullJob(taken: seq<Job>, queue: seq<Job>, source: string)
    ensures var before, after := taken + queue, taken + (queue + [FullJob(source)]);
      before <= after && FileJobs(after, |after|) == FileJobs(before, |before|)
  {
    OneMoreJob(taken + queue, FullJob(source));
    assert taken + (queue + [FullJob(source)]) == taken + queue + [FullJob(source)];
  }

  lemma {:induction false} SameSends(history: seq<Happening>, h: Happening, n: nat)
    requires n <= |history|
    ensures Sends(history + [h], n) == Sends(history, n)
  {
    if n > 0 {
      SameSends(history, h, n - 1);
    }
  }

  lemma OneMoreSend(history: seq<Happening>, h: Happening)
    ensures Sends(history + [h], |history| + 1) == Sends(history, |history|) + if h.Sent? then [h.paths] else []
  {
    SameSends(history, h, |history|);
  }

  lemma FlushKeepsBooks(l: Loop)
    requires Books(l)
    ensures Books(Flush(l)) && Jobs(l) <= Jobs(Flush(l))
    ensures Accepts(Flush(l).history, |Flush(l).history|) == Accepts(l.history, |l.history|)
    ensures forall p :: p in l.pending + l.dirty ==> StillDue(p, l, Flush(l))
  {
    var files := l.pending + l.dirty;
    if files != {} && |l.queue| < INGEST_QUEUE_SIZE {
      assert Jobs(Flush(l)) == Jobs(l) + [FileJob(files)];
      OneMoreJob(Jobs(l), FileJob(files));
      OneMore(l.history, Sent(files));
      OneMoreSend(l.history, Sent(files));
      assert Jobs(Flush(l))[|Jobs(l)|] == FileJob(files);
    }
  }

  lemma AllOfferedKeepsBooks(l: Loop, sources: seq<string>)
    requires Books(l)
    ensures Books(AllOffered(l, sources)) && Jobs(l) <= Jobs(AllOffered(l, sources))
  {
    FullJobsAreNoFileJobs(l.taken, l.queue, sources, |sources|);
  }

  lemma AddedKeepsBooks(l: Loop, path: Path)
    requires Books(l)
    ensures Books(Added(l, path))
    ensures Accepts(Added(l, path).history, |l.history| + 1) == Accepts(l.history, |l.history|) + [path]
  {
    OneMore(l.history, Accepted(path));
    OneMoreSend(l.history, Accepted(path));
  }

  /** A path due before is still pending or dirty, or in a file job put on the queue since. */
  ghost predicate StillDue(p: Path, before: Loop, after: Loop) {
    p in after.pending + after.dirty ||
    exists j :: |Jobs(before)| <= j < |Jobs(after)| && Jobs(after)[j].FileJob? && p in Jobs(after)[j].paths
  }

  function AcceptedBy(l: Loop, e: Event): seq<Path> {
    if e.FileEvent? && e.ingestible && l.state == Running then [e.path] else []
  }

  lemma DueAcross(l: Loop, between: Loop, after: Loop)
    requires l.pending + l.dirty == between.pending + between.dirty && |Jobs(l)| <= |Jobs(between)|
    requires forall p :: p in between.pending + between.dirty ==> StillDue(p, between, after)
    ensures forall p :: p in l.pending + l.dirty ==> StillDue(p, l, after)
  {
    forall p | p in l.pending + l.dirty ensures StillDue(p, l, after) {
      assert StillDue(p, between, after);
    }
  }

  /** A step keeps the books and the timer, takes no job off the record, accepts what it
      should, and loses no path. */
  ghost predicate Keeps(l: Loop, accepted: seq<Path>, after: Loop) {
    && Books(after) && TimerOk(after) && Jobs(l) <= Jobs(after)
    && Accepts(after.history, |after.history|) == Accepts(l.history, |l.history|) + accepted
    && (forall p :: p in l.pending + l.dirty ==> StillDue(p, l, after))
  }

  lemma ResumeKeeps(l: Loop, sources: seq<string>)
    requires Books(l) && TimerOk(l) && l.state == Paused
    ensures Keeps(l, [], Flush(Stopped(AllOffered(l.(state := Running), sources))))
  {
    var running := l.(state := Running);
    AllOfferedKeepsBooks(running, sources);
    var stopped := Stopped(AllOffered(running, sources));
    assert Jobs(stopped) == Jobs(AllOffered(running, sources)) && Jobs(running) == Jobs(l);
    FlushKeepsBooks(stopped);
    DueAcross(l, stopped, Flush(stopped));
  }

  lemma ExpiryKeeps(l: Loop)
    requires Books(l) && TimerOk(l) && l.state == Running
    ensures Keeps(l, [], Rearmed(Flush(l.(timer := Off, debounceActive := false))))
  {
    var received := l.(timer := Off, debounceActive := false);
    assert Jobs(received) == Jobs(l);
    FlushKeepsBooks(received);
    var flushed := Flush(received);
    assert Jobs(Rearmed(flushed)) == Jobs(flushed);
    forall p | p in l.pending + l.dirty ensures StillDue(p, l, Rearmed(flushed)) {
      assert StillDue(p, received, flushed);
    }
  }

  lemma AddKeeps(l: Loop, path: Path)
    requires Books(l) && TimerOk(l)
    ensures Keeps(l, [path], Added(l, path))
  {
    AddedKeepsBooks(l, path);
    assert Jobs(Added(l, path)) == Jobs(l);
  }

  lemma OfferKeeps(l: Loop, sources: seq<string>)
    requires Books(l) && TimerOk(l)
    ensures Keeps(l, [], AllOffered(l, sources))
  {
    AllOfferedKeepsBooks(l, sources);
  }

  lemma TakeKeeps(l: Loop)
    requires Books(l) && TimerOk(l) && l.queue != []
    ensures Keeps(l, [], l.(taken := l.taken + [l.queue[0]], queue := l.queue[1..]))
  {
    assert l.taken + [l.queue[0]] + l.queue[1..] == Jobs(l);
  }

  lemma TriggerKeeps(l: Loop, source: string)
    requires Books(l) && TimerOk(l) && |l.queue| < INGEST_QUEUE_SIZE
    ensures Keeps(l, [], l.(queue := l.queue + [FullJob(source)]))
  {
    AppendFullJob(l.taken, l.queue, source);
  }

  lemma StepKeeps(l: Loop, e: Event, sources: seq<string>)
    requires Books(l) && TimerOk(l)
    ensures Keeps(l, AcceptedBy(l, e), Step(l, e, sources))
  {
    match e
    case ConfigChanged(_) => OfferKeeps(l, sources);
    case ResumeRequested =>
      if l.state == Paused {
        ResumeKeeps(l, sources);
      }
    case FileEvent(path, _) => AddKeeps(l, path);
    case TimerReceived =>
      if l.state == Running {
        ExpiryKeeps(l);
      }
    case Ticked => OfferKeeps(l, sources);
    case JobTaken =>
      if l.queue != [] {
        TakeKeeps(l);
      }
    case Triggered(source) =>
      if |l.queue| < INGEST_QUEUE_SIZE {
        TriggerKeeps(l, source);
      }
    case _ =>
  }

  function StateAfter(events: seq<Event>, n: nat): ServiceState
    requires n <= |events|
  {
    if n == 0 then Running
    else if events[n - 1].PauseRequested? then Paused
    else if events[n - 1].ResumeRequested? then Running
    else StateAfter(events, n - 1)
  }

  /** The paths the first `n` events make the loop accept. */
  function AcceptedPaths(events: seq<Event>, n: nat): seq<Path>
    requires n <= |events|
  {
    if n == 0 then []
    else if events[n - 1].FileEvent? && events[n - 1].ingestible && StateAfter(events, n - 1) == Running then
      AcceptedPaths(events, n - 1) + [events[n - 1].path]
    else AcceptedPaths(events, n - 1)
  }

  /** The books balance, pending files have their timer while running, and exactly the
      ingestible files that came while running have been accepted. */
  ghost predicate RunOk(l: Loop, events: seq<Event>, n: nat)
    requires n <= |events|
  {
    && Books(l) && TimerOk(l) && l.state == StateAfter(events, n)
    && Accepts(l.history, |l.history|) == AcceptedPaths(events, n)
  }

  lemma StepKeepsRun(l: Loop, sources: seq<string>, events: seq<Event>, n: nat)
    requires n < |events| && RunOk(l, events, n)
    ensures RunOk(Step(l, events[n], sources), events, n + 1)
  {
    StepKeeps(l, events[n], sources);
  }

  lemma {:induction false} RunKeeps(sources: seq<string>, events: seq<Event>, n: nat)
    requires n <= |events|
    ensures RunOk(After(sources, events, n), events, n)
  {
    if n > 0 {
      RunKeeps(sources, events, n - 1);
      StepKeepsRun(After(sources, events, n - 1), sources, events, n - 1);
    }
  }

  /** No path is lost: whatever is pending or dirty at some point stays so until a file job
      with it is put on the queue. */
  lemma {:induction false} NoPathIsLost(sources: seq<string>, events: seq<Event>, m: nat, n: nat, p: Path)
    requires m <= n <= |events|
    requires p in After(sources, events, m).pending + After(sources, events, m).dirty
    ensures Jobs(After(sources, events, m)) <= Jobs(After(sources, events, n))
    ensures StillDue(p, After(sources, events, m), After(sources, events, n))
  {
    if m < n {
      NoPathIsLost(sources, events, m, n - 1, p);
      var first, before, after := After(sources, events, m), After(sources, events, n - 1), After(sources, events, n);
      RunKeeps(sources, events, n - 1);
      StepKeeps(before, events[n - 1], sources);
      StillDueFurther(p, first, before, after);
    }
  }

  lemma StillDueFurther(p: Path, first: Loop, before: Loop, after: Loop)
    requires StillDue(p, first, before) && Jobs(first) <= Jobs(before) <= Jobs(after)
    requires p in before.pending + before.dirty ==> StillDue(p, before, after)
    ensures StillDue(p, first, after)
  {
    if p !in before.pending + before.dirty {
      var j :| |Jobs(first)| <= j < |Jobs(before)| && Jobs(before)[j].FileJob? && p in Jobs(before)[j].paths;
      assert Jobs(after)[j] == Jobs(before)[j];
    }
  }

  /** Whether an event asks for a full job for every source. */
  predicate Asks(e: Event, state: ServiceState) {
    match e
    case ConfigChanged(rebuilt) => rebuilt
    case ResumeRequested => state == Paused
    case Ticked => state == Running
    case _ => false
  }

  function FullJobs(jobs: seq<Job>, n: nat): seq<string>
    requires n <= |jobs|
  {
    if n == 0 then [] else FullJobs(jobs, n - 1) + if jobs[n - 1].FullJob? then [jobs[n - 1].source] else []
  }

  /** A rebuilt configuration, a resume and a tick while running put a full job for every
      source on the queue, in order and ahead of any file job, as far as there is room, and
      count the rest as dropped. */
  lemma EverySourceIsAsked(sources: seq<string>, events: seq<Event>, n: nat)
    requires n < |events| && Asks(events[n], StateAfter(events, n))
    ensures var before, after := After(sources, events, n), After(sources, events, n + 1);
      var room := INGEST_QUEUE_SIZE - |before.queue|;
      && after.dropped - before.dropped == (if |sources| <= room then 0 else |sources| - room)
      && forall i :: 0 <= i < |sources| && i < room ==> AddedAt(before, after, i, FullJob(sources[i]))
  {
    RunKeeps(sources, events, n);
    var before, after := After(sources, events, n), After(sources, events, n + 1);
    assert after == Step(before, events[n], sources);
    OfferAsks(before, after, sources);
  }

  /** The `i`-th job put on the queue since. */
  predicate AddedAt(before: Loop, after: Loop, i: nat, job: Job) {
    |Jobs(before)| + i < |Jobs(after)| && Jobs(after)[|Jobs(before)| + i] == job
  }

  lemma OfferAsks(l: Loop, after: Loop, sources: seq<string>)
    requires |l.queue| <= INGEST_QUEUE_SIZE
    requires after.taken == l.taken && WithFullJobs(l.queue, sources, |sources|) <= after.queue
    ensures forall i :: 0 <= i < |sources| && i < INGEST_QUEUE_SIZE - |l.queue| ==>
        AddedAt(l, after, i, FullJob(sources[i]))
  {
    var queue := WithFullJobs(l.queue, sources, |sources|);
    forall i | 0 <= i < |sources| && i < INGEST_QUEUE_SIZE - |l.queue|
      ensures AddedAt(l, after, i, FullJob(sources[i]))
    {
      assert Jobs(after)[|Jobs(l)| + i] == after.queue[|l.queue| + i] == queue[|l.queue| + i] == FullJob(sources[i]);
    }
  }

  /** The full jobs asked for and sent from elsewhere by the first `n` events. */
  function Requested(sources: seq<string>, events: seq<Event>, n: nat): nat
    requires n <= |events|
  {
    if n == 0 then 0
    else
      Requested(sources, events, n - 1) +
      if Asks(events[n - 1], StateAfter(events, n - 1)) then |sources|
      else if events[n - 1].Triggered? && |After(sources, events, n - 1).queue| < INGEST_QUEUE_SIZE then 1
      else 0
  }

  /** A step that asks for nothing puts at most the job it is handed on the queue. */
  lemma StepCounts(l: Loop, e: Event, sources: seq<string>)
    requires |l.queue| <= INGEST_QUEUE_SIZE
    ensures var after := Step(l, e, sources);
      FullCount(after) + after.dropped == FullCount(l) + l.dropped +
        if Asks(e, l.state) then |sources| else if e.Triggered? && |l.queue| < INGEST_QUEUE_SIZE then 1 else 0
  {
    match e
    case ConfigChanged(_) => OfferCounts(l, sources);
    case ResumeRequested =>
      OfferCounts(l.(state := Running), sources);
      FlushCounts(Stopped(AllOffered(l.(state := Running), sources)));
    case TimerReceived => FlushCounts(l.(timer := Off, debounceActive := false));
    case Ticked => OfferCounts(l, sources);
    case JobTaken =>
      if l.queue != [] {
        assert l.taken + [l.queue[0]] + l.queue[1..] == Jobs(l);
      }
    case Triggered(source) =>
      assert l.taken + (l.queue + [FullJob(source)]) == Jobs(l) + [FullJob(source)];
      OneMoreFull(Jobs(l), FullJob(source));
    case _ =>
  }

  function FullCount(l: Loop): nat {
    |FullJobs(Jobs(l), |Jobs(l)|)|
  }

  lemma {:induction false} SameFull(jobs: seq<Job>, more: seq<Job>, n: nat)
    requires n <= |jobs| && jobs <= more
    ensures FullJobs(more, n) == FullJobs(jobs, n)
  {
    if n > 0 {
      SameFull(jobs, more, n - 1);
    }
  }

  lemma OneMoreFull(jobs: seq<Job>, job: Job)
    ensures var all := jobs + [job];
      FullJobs(all, |all|) == FullJobs(jobs, |jobs|) + if job.FullJob? then [job.source] else []
  {
    SameFull(jobs, jobs + [job], |jobs|);
  }

  lemma FlushCounts(l: Loop)
    ensures FullCount(Flush(l)) == FullCount(l) && Flush(l).dropped == l.dropped
  {
    var files := l.pending + l.dirty;
    assert l.taken + (l.queue + [FileJob(files)]) == Jobs(l) + [FileJob(files)];
    OneMoreFull(Jobs(l), FileJob(files));
  }

  lemma {:induction false} ManyFull(jobs: seq<Job>, sources: seq<string>, n: nat)
    requires n <= |sources|
    ensures var all := jobs + seq(n, i requires 0 <= i < n => FullJob(sources[i]));
      |FullJobs(all, |all|)| == |FullJobs(jobs, |jobs|)| + n
  {
    var all := jobs + seq(n, i requires 0 <= i < n => FullJob(sources[i]));
    if n == 0 {
      assert all == jobs;
    } else {
      ManyFull(jobs, sources, n - 1);
      var front := jobs + seq(n - 1, i requires 0 <= i < n - 1 => FullJob(sources[i]));
      assert all == front + [FullJob(sources[n - 1])];
      OneMoreFull(front, FullJob(sources[n - 1]));
    }
  }

  lemma OfferCounts(l: Loop, sources: seq<string>)
    requires |l.queue| <= INGEST_QUEUE_SIZE
    ensures FullCount(AllOffered(l, sources)) + AllOffered(l, sources).dropped == FullCount(l) + l.dropped + |sources|
  {
    var room := INGEST_QUEUE_SIZE - |l.queue|;
    var n := if |sources| <= room then |sources| else room;
    ManyFull(Jobs(l), sources, n);
    assert Jobs(AllOffered(l, sources)) == Jobs(l) + seq(n, i requires 0 <= i < n => FullJob(sources[i]));
  }

  /** Over every run each full job asked for or sent is on the queue, off it, or counted as
      dropped. */
  lemma {:induction false} FullJobsAreCounted(sources: seq<string>, events: seq<Event>, n: nat)
    requires n <= |events|
    ensures FullCount(After(sources, events, n)) + After(sources, events, n).dropped == Requested(sources, events, n)
  {
    if n > 0 {
      FullJobsAreCounted(sources, events, n - 1);
      RunKeeps(sources, events, n - 1);
      StepCounts(After(sources, events, n - 1), events[n - 1], sources);
    }
  }

  /** An ingestible file event while running makes its path pending. */
  lemma AcceptedIsPending(sources: seq<string>, events: seq<Event>, n: nat)
    requires n < |events| && events[n].FileEvent? && events[n].ingestible && StateAfter(events, n) == Running
    ensures events[n].path in After(sources, events, n + 1).pending
  {
    RunKeeps(sources, events, n);
  }

  /** The paths accepted and in no file job since are exactly the pending and the dirty ones;
      the file jobs ever put on the queue are the history's sends, in order; accepted are
      exactly the ingestible files that came while running; and while the loop is running
      pending files have their timer. */
  ghost predicate NothingIsLost(l: Loop, events: seq<Event>) {
    && (forall p :: p in l.pending + l.dirty <==> exists i :: Waiting(l.history, |l.history|, i, p))
    && FileJobs(Jobs(l), |Jobs(l)|) == Sends(l.history, |l.history|)
    && Accepts(l.history, |l.history|) == AcceptedPaths(events, |events|)
    && l.state == StateAfter(events, |events|)
    && (l.state == Running && l.pending != {} ==> l.timer != Off)
  }

  /** Over every run nothing is lost. */
  lemma RunLosesNothing(sources: seq<string>, events: seq<Event>)
    ensures NothingIsLost(After(sources, events, |events|), events)
  {
    RunKeeps(sources, events, |events|);
    AllOwed(After(sources, events, |events|).history);
  }

  lemma AllOwed(history: seq<Happening>)
    ensures forall p :: p in Owed(history, |history|) <==> exists i :: Waiting(history, |history|, i, p)
  {
    forall p ensures p in Owed(history, |history|) <==> exists i :: Waiting(history, |history|, i, p) {
      OwedIsWaiting(history, |history|, p);
    }
  }

  class Service {
    const sources: seq<string>
    var state: ServiceState
    var pendingFiles: set<Path>
    var dirtyFiles: set<Path>
    var debounceActive: bool
    var timer: Timer
    var ingestCh: seq<Job>
    var autoDropped: nat
    ghost var taken: seq<Job>
    ghost var history: seq<Happening>

    ghost function Now(): Loop
      reads this
    {
      Loop(state, pendingFiles, dirtyFiles, debounceActive, timer, ingestCh, taken, history, autoDropped)
    }

    ghost predicate Valid()
      reads this
    {
      Books(Now()) && TimerOk(Now())
    }

    constructor (sources: seq<string>)
      ensures fresh(this) && this.sources == sources && Now() == Start()
    {
      this.sources := sources;
      state := Running;
      pendingFiles, dirtyFiles := {}, {};
      debounceActive, timer := false, Off;
      ingestCh, autoDropped := [], 0;
      taken, history := [], [];
    }

    /** A send that does not wait: an automatic full job is dropped when the queue is full. */
    method EnqueueAuto(source: string)
      modifies `ingestCh, `autoDropped
      ensures if |old(ingestCh)| < INGEST_QUEUE_SIZE
              then ingestCh == old(ingestCh) + [FullJob(source)] && autoDropped == old(autoDropped)
              else ingestCh == old(ingestCh) && autoDropped == old(autoDropped) + 1
    {
      if |ingestCh| < INGEST_QUEUE_SIZE {
        ingestCh := ingestCh + [FullJob(source)];
      } else {
        autoDropped := autoDropped + 1;
      }
    }

    /** A full job for every source, as far as the queue has room; the rest are counted. */
    method EnqueueFullAll()
      requires |ingestCh| <= INGEST_QUEUE_SIZE
      modifies `ingestCh, `autoDropped
      ensures ingestCh == WithFullJobs(old(ingestCh), sources, |sources|)
      ensures autoDropped == old(autoDropped) + |sources| - (|ingestCh| - |old(ingestCh)|)
    {
      var i := 0;
      assert WithFullJobs(ingestCh, sources, 0) == ingestCh;
      while i < |sources|
        invariant i <= |sources| && ingestCh == WithFullJobs(old(ingestCh), sources, i)
        invariant autoDropped == old(autoDropped) + i - (|ingestCh| - |old(ingestCh)|)
      {
        OneMoreFullJob(old(ingestCh), sources, i);
        EnqueueAuto(sources[i]);
        i := i + 1;
      }
    }

    /** enqueueFileRetry: one job with every dirty path, or, when the queue is full, nothing
        and the paths stay. */
    method EnqueueFileRetry()
      modifies `dirtyFiles, `ingestCh, `history
      ensures if old(dirtyFiles) != {} && |old(ingestCh)| < INGEST_QUEUE_SIZE
              then dirtyFiles == {} && ingestCh == old(ingestCh) + [FileJob(old(dirtyFiles))] &&
                  history == old(history) + [Sent(old(dirtyFiles))]
              else dirtyFiles == old(dirtyFiles) && ingestCh == old(ingestCh) && history == old(history)
    {
      if |dirtyFiles| == 0 {
        return;
      }
      if |ingestCh| < INGEST_QUEUE_SIZE {
        ingestCh := ingestCh + [FileJob(dirtyFiles)];
        history := history + [Sent(dirtyFiles)];
        dirtyFiles := {};
      }
    }

    /** flushPendingFiles: the pending files join the dirty ones, which go out as one job if
        the queue has room. */
    method FlushPendingFiles()
      modifies `pendingFiles, `dirtyFiles, `ingestCh, `history
      ensures Now() == Flush(old(Now()))
      ensures pendingFiles == {} && Flushed(old(pendingFiles + dirtyFiles), old(ingestCh), dirtyFiles, ingestCh)
    {
      dirtyFiles := pendingFiles + dirtyFiles;
      pendingFiles := {};
      EnqueueFileRetry();
    }

    method OnReconcile(rebuilt: bool)
      requires Valid()
      modifies this
      ensures Valid() && Now() == Step(old(Now()), ConfigChanged(rebuilt), sources)
    {
      StepKeeps(Now(), ConfigChanged(rebuilt), sources);
      if rebuilt {
        EnqueueFullAll();
      }
    }

    method OnPause()
      requires Valid()
      modifies `state
      ensures Valid() && Now() == Step(old(Now()), PauseRequested, sources)
    {
      if state == Running {
        state := Paused;
      }
    }

    /** handleResume. */
    method HandleResume()
      requires |ingestCh| <= INGEST_QUEUE_SIZE
      modifies `state, `ingestCh, `autoDropped
      ensures Now() == if old(state) == Paused then AllOffered(old(Now()).(state := Running), sources) else old(Now())
    {
      if state == Paused {
        state := Running;
        EnqueueFullAll();
      }
    }

    method StopTimer()
      modifies `timer, `debounceActive
      ensures Now() == Stopped(old(Now()))
    {
      if debounceActive {
        timer := Off;
        debounceActive := false;
      }
    }

    /** The resume branch: full jobs for every source first, then the timer is stopped and
        the files are flushed. It leaves dirty files without a timer exactly when there was
        something to flush and the full jobs left no room for it. */
    method OnResume()
      requires Valid()
      modifies this
      ensures Valid() && Now() == Step(old(Now()), ResumeRequested, sources)
      ensures old(state) == Running ==> Now() == old(Now())
      ensures old(state) == Paused ==>
        && state == Running && pendingFiles == {} && timer == Off && taken == old(taken)
        && Flushed(old(pendingFiles + dirtyFiles), WithFullJobs(old(ingestCh), sources, |sources|), dirtyFiles, ingestCh)
    {
      StepKeeps(Now(), ResumeRequested, sources);
      var wasPaused := state == Paused;
      HandleResume();
      if wasPaused && state == Running {
        StopTimer();
        FlushPendingFiles();
      }
    }

    method AddPending(path: Path)
      modifies `history, `pendingFiles
      ensures history == old(history) + [Accepted(path)] && pendingFiles == old(pendingFiles) + {path}
    {
      history := history + [Accepted(path)];
      pendingFiles := pendingFiles + {path};
    }

    /** A file event: ignored while paused; otherwise an ingestible file is accepted and the
        timer starts over. */
    method OnFile(path: Path, ingestible: bool)
      requires Valid()
      modifies this
      ensures Valid() && Now() == Step(old(Now()), FileEvent(path, ingestible), sources)
      ensures if old(state) == Running && ingestible
              then pendingFiles == old(pendingFiles) + {path} && timer == Armed && dirtyFiles == old(dirtyFiles) &&
                  ingestCh == old(ingestCh) && state == Running
              else Now() == old(Now())
    {
      StepKeeps(Now(), FileEvent(path, ingestible), sources);
      if state == Paused {
        return;
      }
      if ingestible {
        AddPending(path);
        timer := Armed;
        debounceActive := true;
      }
    }

    /** Receiving the timer's expiry: kept for the resume while paused, else a flush, and a
        new countdown if the queue had no room. */
    method OnTimer()
      requires Valid() && timer == Expired
      modifies this
      ensures Valid() && Now() == Step(old(Now()), TimerReceived, sources)
      ensures state == old(state) && taken == old(taken)
      ensures state == Paused ==>
        pendingFiles == old(pendingFiles) && dirtyFiles == old(dirtyFiles) && ingestCh == old(ingestCh) && timer == Off
      ensures state == Running ==> pendingFiles == {} && timer == if dirtyFiles != {} then Armed else Off
      ensures state == Running ==> Flushed(old(pendingFiles + dirtyFiles), old(ingestCh), dirtyFiles, ingestCh)
    {
      StepKeeps(Now(), TimerReceived, sources);
      timer := Off;
      if state == Paused {
        return;
      }
      debounceActive := false;
      FlushPendingFiles();
      Rearm();
    }

    /** The dirty files are retried after another debounce. */
    method Rearm()
      modifies `timer, `debounceActive
      ensures Now() == Rearmed(old(Now()))
    {
      if |dirtyFiles| > 0 {
        timer := Armed;
        debounceActive := true;
      }
    }

    method OnTick()
      requires Valid()
      modifies this
      ensures Valid() && Now() == Step(old(Now()), Ticked, sources)
    {
      StepKeeps(Now(), Ticked, sources);
      if state == Running {
        EnqueueFullAll();
      }
    }

    /** The countdown ends. */
    method Expire()
      requires Valid() && timer == Armed
      modifies `timer
      ensures Valid() && Now() == Step(old(Now()), TimerExpires, sources)
    {
      timer := Expired;
    }

    /** The ingest worker takes the next job. */
    method Take() returns (job: Job)
      requires Valid() && ingestCh != []
      modifies `ingestCh, `taken
      ensures Valid() && Now() == Step(old(Now()), JobTaken, sources)
      ensures job == old(ingestCh)[0] && taken == old(taken) + [job]
    {
      StepKeeps(Now(), JobTaken, sources);
      job := ingestCh[0];
      taken := taken + [job];
      ingestCh := ingestCh[1..];
    }

    /** A job someone else sends, waiting for room. */
    method Send(source: string)
      requires Valid() && |ingestCh| < INGEST_QUEUE_SIZE
      modifies `ingestCh, `autoDropped
      ensures Valid() && Now() == Step(old(Now()), Triggered(source), sources)
    {
      StepKeeps(Now(), Triggered(source), sources);
      EnqueueAuto(source);
    }
  }

  /** One event; one that cannot happen now is passed over. */
  method Handle(s: Service, e: Event)
    requires s.Valid()
    modifies s
    ensures s.Valid() && s.Now() == Step(old(s.Now()), e, s.sources)
  {
    match e
    case ConfigChanged(rebuilt) =>
      s.OnReconcile(rebuilt);
    case PauseRequested =>
      s.OnPause();
    case ResumeRequested =>
      s.OnResume();
    case FileEvent(path, ingestible) =>
      s.OnFile(path, ingestible);
    case TimerReceived =>
      if s.timer == Expired {
        s.OnTimer();
      }
    case TimerExpires =>
      if s.timer == Armed {
        s.Expire();
      }
    case Ticked =>
      s.OnTick();
    case JobTaken =>
      if s.ingestCh != [] {
        var _ := s.Take();
      }
    case Triggered(source) =>
      if |s.ingestCh| < INGEST_QUEUE_SIZE {
        s.Send(source);
      }
  }

  /** The run loop, with whatever its select receives. */
  method Run(sources: seq<string>, events: seq<Event>) returns (s: Service)
    ensures s.Now() == After(sources, events, |events|)
    ensures NothingIsLost(s.Now(), events)
  {
    s := new Service(sources);
    for i := 0 to |events|
      invariant fresh(s) && s.sources == sources && s.Valid() && s.Now() == After(sources, events, i)
    {
      Handle(s, events[i]);
    }
    RunLosesNothing(sources, events);
  }

  /** A file, a pause, `n` jobs from elsewhere, and then the resume. */
  function PausedRun(p: Path, source: string, n: nat): seq<Event> {
    if n == 0 then [FileEvent(p, true), PauseRequested] else PausedRun(p, source, n - 1) + [Triggered(source)]
  }

  lemma {:induction false} SameAfter(sources: seq<string>, events: seq<Event>, e: Event, n: nat)
    requires n <= |events|
    ensures After(sources, events + [e], n) == After(sources, events, n)
  {
    if n > 0 {
      SameAfter(sources, events, e, n - 1);
    }
  }

  lemma PausedRunStarts(p: Path, source: string, sources: seq<string>)
    ensures var l := After(sources, PausedRun(p, source, 0), 2);
      l.state == Paused && l.pending == {p} && l.dirty == {} && l.queue == [] && l.debounceActive
  {
    var events := PausedRun(p, source, 0);
    assert After(sources, events, 0) == Start();
    assert After(sources, events, 1) == Added(Start(), p);
    assert events[1] == PauseRequested;
  }

  lemma {:induction false} PausedRunFills(p: Path, source: string, sources: seq<string>, n: nat)
    requires n <= INGEST_QUEUE_SIZE
    ensures var events := PausedRun(p, source, n); var l := After(sources, events, |events|);
      l.state == Paused && l.pending == {p} && l.dirty == {} && |l.queue| == n && l.debounceActive
  {
    if n == 0 {
      PausedRunStarts(p, source, sources);
    } else {
      PausedRunFills(p, source, sources, n - 1);
      var before := PausedRun(p, source, n - 1);
      SameAfter(sources, before, Triggered(source), |before|);
    }
  }

  /** Dirty files need not have a timer: a path accepted before a pause is left without one
      when jobs from elsewhere have filled the queue by the time of the resume. */
  lemma AResumeCanStrand(p: Path, source: string, sources: seq<string>) returns (events: seq<Event>)
    ensures events == PausedRun(p, source, INGEST_QUEUE_SIZE) + [ResumeRequested]
    ensures var l := After(sources, events, |events|);
      l.state == Running && l.dirty == {p} && l.timer == Off && !l.debounceActive && l.pending == {}
  {
    var before := PausedRun(p, source, INGEST_QUEUE_SIZE);
    events := before + [ResumeRequested];
    PausedRunFills(p, source, sources, INGEST_QUEUE_SIZE);
    SameAfter(sources, before, ResumeRequested, |before|);
    assert {p} + {} == {p};
  }
}
