/** What the broker can always get done: an emission and a shutdown can be completed, a replay
    answered, a handler ended; and what becomes of an id that is burned and of a replay that
    retention overtakes. */
module BrokerProgress {
  import opened Wrappers
  import opened Records
  import opened Broker
  import opened BrokerInvariants
  import opened BrokerDurability
  import opened BrokerTheorems

  /** How far the persister is from its next record. */
  function ToNext(c: Core): nat {
    match c.persist
    case PersistDone => 0
    case PersistIdle => 1
    case Writing(_) => 5
    case Written(_) => 4
    case PersistMarking(_) => 3
    case PersistSwapping(_, seen) => if c.mark == seen then 2 else 4
  }

  /** The persister's next step when its writes succeed. */
  function PersistNext(c: Core): CoreStep
    requires !c.persist.PersistDone?
  {
    match c.persist
    case PersistIdle => if c.queue == [] then PersistExit else PersistTake
    case Writing(_) => PersistAppend(true)
    case Written(_) => PersistStore
    case PersistMarking(_) => PersistLoadMark
    case PersistSwapping(_, _) => PersistSwapMark
  }

  lemma PersistAdvances(c: Core)
    requires CoreInv(c) && c.closed && !c.persist.PersistDone?
    ensures CoreEnabled(c, PersistNext(c))
    ensures var d := CoreApply(c, PersistNext(c));
      && d.closed && c.lost <= d.lost && (|d.queue| < |c.queue| || (d.queue == c.queue && ToNext(d) < ToNext(c)))
      && forall r :: r in c.log || r in Pending(c) ==> r in d.log || r in Pending(d)
  {
    var d := CoreApply(c, PersistNext(c));
    if c.persist.PersistIdle? && c.queue != [] {
      assert c.queue == [c.queue[0]] + c.queue[1..];
    }
  }

  lemma RunOne(s: Server, step: Step, rest: seq<Step>)
    requires Enabled(s, step) && IsRun(Apply(s, step), rest)
    ensures IsRun(s, [step] + rest) && Run(s, [step] + rest) == Run(Apply(s, step), rest)
  {
    assert ([step] + rest)[1..] == rest;
  }

  /** Nothing is left to do at a close: the queue is written out and every channel closed. */
  ghost predicate Drained(s: Server, t: Server) {
    && t.core.closed && t.core.persist.PersistDone? && t.core.queue == [] && t.hub.subs == {}
    && s.core.lost <= t.core.lost
    && forall r :: r in s.core.log || r in Pending(s.core) ==> r in t.core.log
  }

  /** The persister stops only when the server is closing and nothing is queued. */
  predicate StopsLast(c: Core) {
    c.persist.PersistDone? ==> c.closed && c.queue == []
  }

  lemma CoreStepStopsLast(c: Core, step: CoreStep)
    requires (c.closed ==> c.emit.EmitIdle?) && StopsLast(c) && CoreEnabled(c, step)
    ensures StopsLast(CoreApply(c, step))
  {
  }

  lemma StepStopsLast(s: Server, step: Step)
    requires Sequenced(s.core) && StopsLast(s.core) && Enabled(s, step)
    ensures StopsLast(Apply(s, step).core)
  {
    if step.Serve? {
      CoreStepStopsLast(s.core, step.cs);
    }
  }

  lemma {:induction false} RunStopsLast(s: Server, steps: seq<Step>)
    requires Inv(s) && StopsLast(s.core) && IsRun(s, steps)
    ensures StopsLast(Run(s, steps).core)
    decreases |steps|
  {
    if steps != [] {
      StepInv(s, steps[0]);
      StepStopsLast(s, steps[0]);
      RunStopsLast(Apply(s, steps[0]), steps[1..]);
    }
  }

  lemma {:induction false} CloseCanFinish(s: Server) returns (steps: seq<Step>)
    requires Inv(s) && s.core.closed && StopsLast(s.core)
    ensures IsRun(s, steps) && Drained(s, Run(s, steps))
    decreases |s.core.queue|, ToNext(s.core)
  {
    if s.core.persist.PersistDone? {
      RunOne(s, CloseChannels, []);
      steps := [CloseChannels] + [];
    } else {
      var step := Serve(PersistNext(s.core));
      PersistAdvances(s.core);
      StepInv(s, step);
      var rest := CloseCanFinish(Apply(s, step));
      RunOne(s, step, rest);
      steps := [step] + rest;
    }
  }

  lemma {:induction false} RunAppend(s: Server, a: seq<Step>, b: seq<Step>)
    requires IsRun(s, a) && IsRun(Run(s, a), b)
    ensures IsRun(s, a + b) && Run(s, a + b) == Run(Run(s, a), b)
    decreases |a|
  {
    if a == [] {
      assert a + b == b;
    } else {
      RunAppend(Apply(s, a[0]), a[1..], b);
      RunOne(s, a[0], a[1..] + b);
      assert [a[0]] + (a[1..] + b) == a + b;
    }
  }

  /** How far Emit is from being free. */
  function ToIdle(c: Core): nat {
    match c.emit
    case EmitIdle => 0
    case EmitSwapping(_, seen) => if c.mark == seen then 1 else 3
    case EmitMarking(_) => 2
    case _ => 4
  }

  /** Emit's next step when nothing else happens. */
  function EmitNext(c: Core): CoreStep
    requires !c.emit.EmitIdle? && !c.emit.Assigned?
  {
    match c.emit
    case Announced(_) => EmitEnqueue
    case EmitMarking(_) => EmitLoadMark
    case _ => EmitSwapMark
  }

  /** A record on its way is in the log, still on its way, or lost because the queue was full. */
  predicate Carried(r: Rec, c: Core, d: Core) {
    r in d.log || r in Pending(d) || (r.id in d.lost && |c.queue| >= PERSIST_BUFFER)
  }

  ghost predicate AllCarried(c: Core, d: Core) {
    forall r :: r in c.log || r in Pending(c) ==> Carried(r, c, d)
  }

  lemma EmitMoves(c: Core)
    requires CoreInv(c) && !c.emit.EmitIdle? && !c.emit.Assigned?
    ensures CoreEnabled(c, EmitNext(c))
    ensures var d := CoreApply(c, EmitNext(c));
      && !d.emit.Assigned? && ToIdle(d) < ToIdle(c) && Moves(c, d)
  {
  }

  /** A step of Emit on its way to being free. */
  ghost predicate Moves(c: Core, d: Core) {
    && AllCarried(c, d) && c.lost <= d.lost && c.closed == d.closed && (d.queue == c.queue || d.emit.EmitIdle?)
  }

  lemma PublishMoves(c: Core)
    requires CoreInv(c) && c.emit.Assigned?
    ensures CorePublish(c).emit.Announced? && Moves(c, CorePublish(c))
  {
    assert forall r :: r in Pending(c) ==> r in Pending(CorePublish(c));
  }

  lemma CarriedOn(c: Core, d: Core, e: Core)
    requires Moves(c, d) && AllCarried(d, e) && d.lost <= e.lost && (d.emit.EmitIdle? ==> e == d)
    ensures AllCarried(c, e) && c.lost <= e.lost
  {
    forall r | r in c.log || r in Pending(c) ensures Carried(r, c, e) {
      assert Carried(r, c, d);
      if r in d.log || r in Pending(d) {
        assert Carried(r, d, e);
      }
    }
  }

  /** An emission can always be completed. */
  lemma {:induction false} EmitCanFinish(s: Server) returns (steps: seq<Step>)
    requires Inv(s)
    ensures IsRun(s, steps) && (s.core.emit.EmitIdle? ==> steps == [])
    ensures var t := Run(s, steps);
      && t.core.emit.EmitIdle? && t.core.closed == s.core.closed
      && AllCarried(s.core, t.core) && s.core.lost <= t.core.lost
    decreases if s.core.emit.Assigned? then 1 else 0, ToIdle(s.core)
  {
    if s.core.emit.EmitIdle? {
      return [];
    }
    var step := Publish;
    if s.core.emit.Assigned? {
      PublishMoves(s.core);
    } else {
      step := Serve(EmitNext(s.core));
      EmitMoves(s.core);
    }
    StepInv(s, step);
    var rest := EmitCanFinish(Apply(s, step));
    RunOne(s, step, rest);
    CarriedOn(s.core, Apply(s, step).core, Run(Apply(s, step), rest).core);
    steps := [step] + rest;
  }

  /** A server can always be closed: the emission under way is completed, the persister writes
      out what is queued and stops, and every channel is closed. No record on its way is lost
      unless it finds the queue full. */
  lemma AServerCanClose(log: seq<Rec>, steps: seq<Step>) returns (more: seq<Step>)
    requires StartupLog(log) && IsRun(Init(log), steps)
    ensures var s := Run(Init(log), steps);
      && IsRun(s, more)
      && var t := Run(s, more);
        && t.core.closed && t.core.persist.PersistDone? && t.core.queue == [] && t.hub.subs == {}
        && forall r :: r in s.core.log || r in Pending(s.core) ==>
            r in t.core.log || (r.id in t.core.lost && |s.core.queue| >= PERSIST_BUFFER)
  {
    InitInv(log);
    RunInv(Init(log), steps);
    RunStopsLast(Init(log), steps);
    var s := Run(Init(log), steps);
    var first := EmitCanFinish(s);
    RunInv(s, first);
    RunStopsLast(s, first);
    var idle := Run(s, first);
    var begin := if idle.core.closed then [] else [Serve(CloseBegin)];
    if !idle.core.closed {
      RunOne(idle, Serve(CloseBegin), []);
      assert [Serve(CloseBegin)] + [] == begin;
    }
    RunInv(idle, begin);
    RunStopsLast(idle, begin);
    var closing := Run(idle, begin);
    assert closing.core == idle.core.(closed := true);
    var last := CloseCanFinish(closing);
    RunAppend(idle, begin, last);
    RunAppend(s, first, begin + last);
    more := first + (begin + last);
    var t := Run(closing, last);
    forall r | r in s.core.log || r in Pending(s.core)
      ensures r in t.core.log || (r.id in t.core.lost && |s.core.queue| >= PERSIST_BUFFER)
    {
      assert Carried(r, s.core, idle.core);
    }
  }

  predicate Replays(phase: Phase) {
    phase.PreCheck? || phase.Waiting? || phase.GaveUp? || phase.BatchTop? || phase.Unmarked? || phase.Locked? ||
    phase.Draining?
  }

  /** What a handler does next on its own if no read fails. */
  function ReplayNext(core: Core, c: Client): HandlerStep
    requires Replays(c.phase)
  {
    match c.phase
    case PreCheck => CheckMark
    case Waiting => if core.durableID >= c.watermark then Durable else GiveUp
    case GaveUp => NotDurableExit
    case BatchTop(_) => Recheck
    case Unmarked(_) => LockAndMin
    case Locked(_) => ReadBatch
    case Draining(_, _) => WriteOne
  }

  function PhaseRank(phase: Phase): nat {
    match phase
    case PreCheck => 6
    case Waiting => 5
    case GaveUp => 4
    case BatchTop(_) => 3
    case Unmarked(_) => 2
    case Locked(_) => 1
    case _ => 0
  }

  /** The ids a handler has yet to examine. */
  function ToExamine(c: Client): int {
    match c.phase
    case BatchTop(after) => c.watermark - after
    case Unmarked(after) => c.watermark - after
    case Locked(after) => c.watermark - after
    case Draining(_, expected) => c.watermark - expected + 1
    case _ => c.watermark - c.resume
  }

  lemma ReplayAdvances(core: Core, live: bool, ch: Channel, c: Client)
    requires CoreInv(core) && ClientOk(core.history, core.closed, live, ch, c) && Replays(c.phase)
    ensures HandlerEnabled(core, c, ReplayNext(core, c)) && ToExamine(c) > 0
    ensures var d := HandlerApply(core, c, ReplayNext(core, c));
      d.phase.Tailing? ||
      (Replays(d.phase) && (0 <= ToExamine(d) < ToExamine(c) ||
         (ToExamine(d) == ToExamine(c) && PhaseRank(d.phase) < PhaseRank(c.phase))))
  {
  }

  predicate Advanced(c: Client, d: Client) {
    if d.phase.Tailing? then d.caughtUp || d.notices != []
    else
      && Replays(d.phase)
      && (0 <= ToExamine(d) < ToExamine(c) ||
           (ToExamine(d) == ToExamine(c) && PhaseRank(d.phase) < PhaseRank(c.phase)))
  }

  /** Steps of the handler of `k` alone, whose reads succeed. */
  predicate HandlesOnly(steps: seq<Step>, k: nat) {
    forall i :: 0 <= i < |steps| ==> steps[i].Handle? && steps[i].k == k && steps[i].hs != ReadFails
  }

  lemma HandlesCons(step: Step, rest: seq<Step>, k: nat)
    requires step.Handle? && step.k == k && step.hs != ReadFails && HandlesOnly(rest, k)
    ensures HandlesOnly([step] + rest, k)
  {
  }

  lemma ReplayStep(s: Server, k: nat)
    requires Inv(s) && k in s.hub.clients && Replays(s.hub.clients[k].phase)
    ensures var c := s.hub.clients[k]; var step := Handle(k, ReplayNext(s.core, c));
      && Enabled(s, step) && Inv(Apply(s, step)) && k in Apply(s, step).hub.clients && ToExamine(c) > 0
      && Advanced(c, Apply(s, step).hub.clients[k])
  {
    var c := s.hub.clients[k];
    ReplayAdvances(s.core, k in s.hub.subs, s.hub.chans[k], c);
    StepInv(s, Handle(k, ReplayNext(s.core, c)));
  }

  lemma {:induction false} ReplayCanFinish(s: Server, k: nat) returns (steps: seq<Step>)
    requires Inv(s) && k in s.hub.clients && Replays(s.hub.clients[k].phase)
    ensures IsRun(s, steps) && HandlesOnly(steps, k)
    ensures k in Run(s, steps).hub.clients
    ensures var c := Run(s, steps).hub.clients[k]; c.phase.Tailing? && (c.caughtUp || c.notices != [])
    decreases ToExamine(s.hub.clients[k]), PhaseRank(s.hub.clients[k].phase)
  {
    var step := Handle(k, ReplayNext(s.core, s.hub.clients[k]));
    ReplayStep(s, k);
    var t := Apply(s, step);
    if t.hub.clients[k].phase.Tailing? {
      RunOne(s, step, []);
      HandlesCons(step, [], k);
      steps := [step] + [];
    } else {
      var rest := ReplayCanFinish(t, k);
      RunOne(s, step, rest);
      HandlesCons(step, rest, k);
      steps := [step] + rest;
    }
  }

  /** A replay can always be finished, by its handler alone: it ends tailing, having served
      the whole range or said why not. */
  lemma AReplayCanFinish(log: seq<Rec>, steps: seq<Step>, k: nat) returns (more: seq<Step>)
    requires StartupLog(log) && IsRun(Init(log), steps)
    requires k in Run(Init(log), steps).hub.clients && Replays(Run(Init(log), steps).hub.clients[k].phase)
    ensures IsRun(Run(Init(log), steps), more) && HandlesOnly(more, k)
    ensures k in Run(Run(Init(log), steps), more).hub.clients
    ensures var c := Run(Run(Init(log), steps), more).hub.clients[k]; c.phase.Tailing? && (c.caughtUp || c.notices != [])
  {
    InitInv(log);
    RunInv(Init(log), steps);
    more := ReplayCanFinish(Run(Init(log), steps), k);
  }

  // ------------------------------------------------------------ a replay that is answered in full

  /** Reads that succeed leave the shared state and the client's range as they are. */
  lemma {:induction false} HandlesRetain(s: Server, steps: seq<Step>, k: nat)
    requires IsRun(s, steps) && HandlesOnly(steps, k) && k in s.hub.clients && Retained(s.core, s.hub.clients[k])
    ensures RetainedAlong(s, steps, k) && Run(s, steps).core == s.core
    ensures k in Run(s, steps).hub.clients && Run(s, steps).hub.clients[k].resume == s.hub.clients[k].resume
    ensures Run(s, steps).hub.clients[k].watermark == s.hub.clients[k].watermark
    decreases |steps|
  {
    if steps != [] {
      assert steps[0].Handle? && steps[0].k == k && steps[0].hs != ReadFails;
      assert HandlesOnly(steps[1..], k);
      HandlesRetain(Apply(s, steps[0]), steps[1..], k);
    }
  }

  lemma HandlerTellsNothing(core: Core, live: bool, ch: Channel, c: Client, hs: HandlerStep)
    requires ClientOk(core.history, core.closed, live, ch, c) && HandlerEnabled(core, c, hs) && hs != ReadFails
    requires Clean(core, HandlerApply(core, c, hs))
    ensures HandlerApply(core, c, hs).notices == c.notices
  {
  }

  lemma OneTellsNothing(s: Server, k: nat, hs: HandlerStep)
    requires Inv(s) && Enabled(s, Handle(k, hs)) && hs != ReadFails
    requires Clean(s.core, s.hub.clients[k]) && Retained(s.core, s.hub.clients[k])
    ensures var t := Apply(s, Handle(k, hs));
      && t.core == s.core && k in t.hub.clients && t.hub.clients[k].notices == s.hub.clients[k].notices
      && Clean(t.core, t.hub.clients[k]) && Retained(t.core, t.hub.clients[k])
  {
    HandlerKeepsClean(s.core, k in s.hub.subs, s.hub.chans[k], s.hub.clients[k], hs);
    HandlerTellsNothing(s.core, k in s.hub.subs, s.hub.chans[k], s.hub.clients[k], hs);
  }

  lemma {:induction false} HandlesTellNothing(s: Server, steps: seq<Step>, k: nat)
    requires Inv(s) && IsRun(s, steps) && HandlesOnly(steps, k) && k in s.hub.clients
    requires Clean(s.core, s.hub.clients[k]) && Retained(s.core, s.hub.clients[k])
    ensures k in Run(s, steps).hub.clients && Run(s, steps).hub.clients[k].notices == s.hub.clients[k].notices
    decreases |steps|
  {
    if steps != [] {
      assert steps[0].Handle? && steps[0].k == k && steps[0].hs != ReadFails;
      assert HandlesOnly(steps[1..], k);
      OneTellsNothing(s, k, steps[0].hs);
      StepInv(s, steps[0]);
      HandlesTellNothing(Apply(s, steps[0]), steps[1..], k);
    }
  }

  /** A client that is to replay a range which is durable and in the log can be handed exactly
      the published records of that range, without a notice. */
  lemma ARetainedReplayFinishes(log: seq<Rec>, steps: seq<Step>, k: nat) returns (more: seq<Step>)
    requires StartupLog(log) && IsRun(Init(log), steps)
    requires var s := Run(Init(log), steps);
      && k in s.hub.clients && s.hub.clients[k].phase.PreCheck? && Retained(s.core, s.hub.clients[k])
      && s.core.durableID >= s.hub.clients[k].watermark
    ensures var s := Run(Init(log), steps);
      && IsRun(s, more) && HandlesOnly(more, k) && k in Run(s, more).hub.clients
      && var c, d := s.hub.clients[k], Run(s, more).hub.clients[k];
        && d.phase.Tailing? && d.notices == []
        && d.replayed == Between(s.core.history, c.resume, c.watermark)
  {
    InitInv(log);
    RunInv(Init(log), steps);
    var s := Run(Init(log), steps);
    more := ReplayCanFinish(s, k);
    HandlesRetain(s, more, k);
    NoNeedlessResync(s, more, k);
    RunInv(s, more);
    HandlesTellNothing(s, more, k);
  }

  // ------------------------------------------------------------ a replay that retention overtakes

  /** What a prune of `n` records and the client's next read come to. */
  ghost predicate ToldPruned(s: Server, t: Server, k: nat, n: nat)
    requires k in s.hub.clients && s.hub.clients[k].phase.Unmarked? && 0 < n <= |s.core.log|
  {
    && (forall r :: r in t.core.log <==> r in s.core.log && s.core.log[n - 1].id < r.id)
    && k in t.hub.clients && t.hub.clients[k].phase.Tailing?
    && t.hub.clients[k].notices == s.hub.clients[k].notices + [Resync(Pruned, s.hub.clients[k].phase.after + 1)]
    && t.hub.clients[k].Handed() == s.hub.clients[k].Handed()
  }

  lemma TruncatedSteps(s: Server, k: nat, n: nat)
    requires Increasing(s.core.log) && HasClient(s.hub, k) && s.hub.clients[k].phase.Unmarked? && ReplayMuFree(s.hub)
    requires 0 < n < |s.core.log| && s.hub.clients[k].phase.after < s.core.log[n - 1].id
    ensures var more := [Serve(Prune(n))] + ([Handle(k, LockAndMin)] + []);
      IsRun(s, more) && ToldPruned(s, Run(s, more), k, n)
  {
    var pruned := Apply(s, Serve(Prune(n)));
    CutMembers(s.core.log, n);
    assert FirstId(pruned.core.log) == s.core.log[n].id > s.core.log[n - 1].id;
    RunOne(pruned, Handle(k, LockAndMin), []);
    RunOne(s, Serve(Prune(n)), [Handle(k, LockAndMin)] + []);
  }

  /** A prune between a replay's look at the mark and its read is noticed: the log keeps
      exactly the records above the last one deleted, and a client whose next record is among
      those deleted is told that it was pruned. */
  lemma ATruncatedReplayIsTold(log: seq<Rec>, steps: seq<Step>, k: nat, n: nat)
    requires StartupLog(log) && IsRun(Init(log), steps)
    requires var s := Run(Init(log), steps);
      && k in s.hub.clients && s.hub.clients[k].phase.Unmarked? && ReplayMuFree(s.hub)
      && 0 < n < |s.core.log| && s.hub.clients[k].phase.after < s.core.log[n - 1].id
    ensures var s, more := Run(Init(log), steps), [Serve(Prune(n))] + ([Handle(k, LockAndMin)] + []);
      IsRun(s, more) && ToldPruned(s, Run(s, more), k, n)
  {
    InitInv(log);
    RunInv(Init(log), steps);
    TruncatedSteps(Run(Init(log), steps), k, n);
  }

  lemma CutMembers(log: seq<Rec>, n: nat)
    requires Increasing(log) && 0 < n <= |log|
    ensures forall r :: r in log[n..] <==> r in log && log[n - 1].id < r.id
  {
    assert log == log[..n] + log[n..];
    forall r ensures r in log[n..] <==> r in log && log[n - 1].id < r.id {
      if r in log && log[n - 1].id < r.id {
        var i :| 0 <= i < |log| && log[i] == r;
        assert i >= n && log[n..][i - n] == r;
      }
      if r in log[n..] {
        var i :| 0 <= i < |log| - n && log[n..][i] == r;
        assert log[n + i] == r;
      }
    }
  }

  // ------------------------------------------------------------ a handler that ends

  /** The handler of `k` is gone: it keeps what it was handed, its channel is closed and no
      longer registered, and nobody else's changes. */
  ghost predicate HasEnded(s: Server, t: Server, k: nat)
    requires HasClient(s.hub, k)
  {
    && t.core == s.core && t.hub.subs == s.hub.subs - {k} && HasClient(t.hub, k)
    && t.hub.clients[k].phase.Gone? && t.hub.chans[k].closed && !t.hub.chans[k].broken
    && t.hub.clients[k].Handed() == s.hub.clients[k].Handed()
    && t.hub.clients[k].notices ==
       s.hub.clients[k].notices + (if s.hub.clients[k].phase.Locked? then [ReplayError] else [])
    && t.hub.clients.Keys == s.hub.clients.Keys && t.hub.chans.Keys == s.hub.chans.Keys
    && (forall j :: j in s.hub.clients && j != k ==> t.hub.clients[j] == s.hub.clients[j])
    && (forall j :: j in s.hub.chans && j != k ==> t.hub.chans[j] == s.hub.chans[j])
  }

  lemma UnsubscribeEnds(s: Server, k: nat)
    requires HasClient(s.hub, k) && s.hub.clients[k].phase.Finished?
    requires !s.hub.chans[k].broken && (k in s.hub.subs <==> !s.hub.chans[k].closed)
    ensures Enabled(s, Unsubscribe(k)) && HasEnded(s, Apply(s, Unsubscribe(k)), k)
  {
  }

  lemma EndSteps(s: Server, k: nat) returns (more: seq<Step>)
    requires HasClient(s.hub, k) && !s.hub.clients[k].phase.Gone?
    requires !s.hub.chans[k].broken && (k in s.hub.subs <==> !s.hub.chans[k].closed)
    ensures IsRun(s, more) && HasEnded(s, Run(s, more), k)
  {
    var phase := s.hub.clients[k].phase;
    if phase.Finished? {
      UnsubscribeEnds(s, k);
      RunOne(s, Unsubscribe(k), []);
      more := [Unsubscribe(k)] + [];
    } else {
      var step := Handle(k, if phase.Locked? then ReadFails else Leave);
      var t := Apply(s, step);
      UnsubscribeEnds(t, k);
      RunOne(t, Unsubscribe(k), []);
      RunOne(s, step, [Unsubscribe(k)] + []);
      more := [step] + ([Unsubscribe(k)] + []);
    }
  }

  /** A handler can always end, wherever it stands, by a failed read if it is inside one. */
  lemma AHandlerCanEnd(log: seq<Rec>, steps: seq<Step>, k: nat) returns (more: seq<Step>)
    requires StartupLog(log) && IsRun(Init(log), steps)
    requires HasClient(Run(Init(log), steps).hub, k) && !Run(Init(log), steps).hub.clients[k].phase.Gone?
    ensures IsRun(Run(Init(log), steps), more)
    ensures HasEnded(Run(Init(log), steps), Run(Run(Init(log), steps), more), k)
  {
    InitInv(log);
    RunInv(Init(log), steps);
    more := EndSteps(Run(Init(log), steps), k);
  }

  // ------------------------------------------------------------ an id that is burned

  /** An emission that cannot be marshalled takes its id with it: whatever happens afterwards,
      no record is published under it. */
  lemma ABurnedIdIsNeverPublished(log: seq<Rec>, steps: seq<Step>)
    requires StartupLog(log) && IsRun(Init(log), steps) && Run(Init(log), steps).core.emit.Assigned?
    ensures var s := Run(Init(log), steps);
      && Enabled(s, Serve(EmitBurn))
      && forall more :: IsRun(Apply(s, Serve(EmitBurn)), more) ==>
          s.core.emit.rec.id !in Ids(Run(Apply(s, Serve(EmitBurn)), more).core.history)
  {
    InitInv(log);
    RunInv(Init(log), steps);
    var s := Run(Init(log), steps);
    var t := Apply(s, Serve(EmitBurn));
    LastIsGreatest(s.core.history);
    forall more | IsRun(t, more) ensures s.core.emit.rec.id !in Ids(Run(t, more).core.history) {
      RunPublishes(t, more);
      forall r | r in Run(t, more).core.history ensures r.id != s.core.emit.rec.id {
        assert AccountedFor(r, t.core, Emitted(more));
      }
    }
  }
}
