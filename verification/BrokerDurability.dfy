/** What becomes of what is emitted: which records are published, under which ids, how far
    the log is durable, and what it takes to lose one. */
module BrokerDurability {
  import opened Wrappers
  import opened Records
  import opened Broker
  import opened BrokerInvariants

  /** The record whose durable write has returned and has yet to move durableID. */
  predicate JustWritten(c: Core, id: nat) {
    c.persist.Written? && c.persist.job.id == id
  }

  predicate DurableId(c: Core, id: nat) {
    id <= c.durableID || JustWritten(c, id)
  }

  /** Everything that has been written is at or below durableID, but for the record the
      persister has just written; and what retention has deleted is gone. */
  ghost predicate WrittenIsDurable(c: Core) {
    && (forall r :: r in c.log ==> DurableId(c, r.id) && r.id !in c.pruned)
    && (forall id :: id in c.pruned ==> DurableId(c, id))
  }

  lemma PruneKeepsDurable(c: Core, n: nat)
    requires Increasing(c.log) && WrittenIsDurable(c) && n <= |c.log|
    ensures WrittenIsDurable(CoreApply(c, Prune(n)))
  {
    forall r | r in c.log[n..] ensures r in c.log && r.id !in Ids(c.log[..n]) {
      var i :| 0 <= i < |c.log| - n && c.log[n..][i] == r;
      assert c.log[n + i] == r;
    }
  }

  lemma CoreStepKeepsDurable(c: Core, step: CoreStep)
    requires Piped(c) && WrittenIsDurable(c) && CoreEnabled(c, step)
    ensures WrittenIsDurable(CoreApply(c, step))
  {
    match step
    case Prune(n) => PruneKeepsDurable(c, n);
    case _ =>
  }

  lemma {:induction false} RunKeepsDurable(s: Server, steps: seq<Step>)
    requires Inv(s) && WrittenIsDurable(s.core) && IsRun(s, steps)
    ensures WrittenIsDurable(Run(s, steps).core)
    decreases |steps|
  {
    if steps != [] {
      if steps[0].Serve? {
        CoreStepKeepsDurable(s.core, steps[0].cs);
      }
      StepInv(s, steps[0]);
      RunKeepsDurable(Apply(s, steps[0]), steps[1..]);
    }
  }

  ghost predicate DurabilityKnown(c: Core) {
    && (forall r :: r in c.log ==> DurableId(c, r.id) && r.id !in c.pruned)
    && (forall r :: r in c.history && r !in Pending(c) && r.id !in c.lost ==> DurableId(c, r.id))
    && (Pending(c) == [] && !c.persist.Written? && c.lastPublishedID !in c.lost ==> c.durableID == c.lastPublishedID)
  }

  lemma DurableIsKnown(c: Core)
    requires Sequenced(c) && Accounted(c) && WrittenIsDurable(c)
    ensures DurabilityKnown(c)
  {
    if c.history != [] {
      assert c.history[|c.history| - 1] in c.history;
    }
  }

  lemma StartIsDurable(log: seq<Rec>)
    requires StartupLog(log)
    ensures WrittenIsDurable(Init(log).core)
  {
    LastIsGreatest(log);
  }

  /** The durable watermark over every run: unless the persister is between a write and its
      account, every record in the log, and every published one that is neither pending nor
      lost, is at or below durableID; and with nothing pending and the newest not lost,
      everything published is. */
  lemma LogIsDurable(log: seq<Rec>, steps: seq<Step>)
    requires StartupLog(log) && IsRun(Init(log), steps)
    ensures DurabilityKnown(Run(Init(log), steps).core)
  {
    InitInv(log);
    StartIsDurable(log);
    RunInv(Init(log), steps);
    RunKeepsDurable(Init(log), steps);
    DurableIsKnown(Run(Init(log), steps).core);
  }

  // ------------------------------------------------------------ what is published

  /** The events Emit is called with along a run, in order. */
  function Emitted(steps: seq<Step>): seq<LiveEvent> {
    if steps == [] then []
    else (if steps[0].Serve? && steps[0].cs.EmitAssign? then [steps[0].cs.ev] else []) + Emitted(steps[1..])
  }

  /** How many of them failed to be marshalled. */
  function Burned(steps: seq<Step>): nat {
    if steps == [] then 0
    else (if steps[0].Serve? && steps[0].cs.EmitBurn? then 1 else 0) + Burned(steps[1..])
  }

  function InHand(c: Core): seq<Rec> {
    if c.emit.Assigned? then [c.emit.rec] else []
  }

  /** `r` carries the event that got its id, when the sequence stood at `from`. */
  predicate IsEmitted(r: Rec, from: nat, emitted: seq<LiveEvent>) {
    from < r.id <= from + |emitted| && r.ev == emitted[r.id - from - 1]
  }

  predicate AccountedFor(r: Rec, c: Core, emitted: seq<LiveEvent>) {
    r in c.history || r in InHand(c) || IsEmitted(r, c.eventSeq, emitted)
  }

  /** From one state of the server to a later one. */
  ghost predicate Publishes(c: Core, emitted: seq<LiveEvent>, burned: nat, d: Core) {
    && d.eventSeq == c.eventSeq + |emitted|
    && |d.history| + |InHand(d)| + burned == |c.history| + |InHand(c)| + |emitted|
    && c.history <= d.history
    && (forall r :: r in d.history || r in InHand(d) ==> AccountedFor(r, c, emitted))
  }

  lemma StepPublishes(s: Server, step: Step)
    requires Enabled(s, step)
    ensures Publishes(s.core, Emitted([step]), Burned([step]), Apply(s, step).core)
  {
    assert [step][1..] == [];
  }

  lemma PublishesOn(c: Core, e1: seq<LiveEvent>, b1: nat, d: Core, e2: seq<LiveEvent>, b2: nat, f: Core)
    requires Publishes(c, e1, b1, d) && Publishes(d, e2, b2, f)
    ensures Publishes(c, e1 + e2, b1 + b2, f)
  {
    forall r | r in f.history || r in InHand(f) ensures AccountedFor(r, c, e1 + e2) {
      assert AccountedFor(r, d, e2);
      if r in d.history || r in InHand(d) {
        assert AccountedFor(r, c, e1);
      }
    }
  }

  lemma {:induction false} RunPublishes(s: Server, steps: seq<Step>)
    requires IsRun(s, steps)
    ensures Publishes(s.core, Emitted(steps), Burned(steps), Run(s, steps).core)
    decreases |steps|
  {
    if steps != [] {
      StepPublishes(s, steps[0]);
      RunPublishes(Apply(s, steps[0]), steps[1..]);
      assert [steps[0]][1..] == [];
      PublishesOn(s.core, Emitted([steps[0]]), Burned([steps[0]]), Apply(s, steps[0]).core, Emitted(steps[1..]),
          Burned(steps[1..]), Run(s, steps).core);
      assert Emitted([steps[0]]) + Emitted(steps[1..]) == Emitted(steps);
    }
  }

  /** Over every run: the n-th event emitted gets the n-th id after the log's last one, and
      is published under it, unless it is about to be or was burned; nothing else is. */
  lemma PublishedIsEmitted(log: seq<Rec>, steps: seq<Step>)
    requires StartupLog(log) && IsRun(Init(log), steps)
    ensures var c := Run(Init(log), steps).core;
      && log <= c.history && c.eventSeq == LastId(log) + |Emitted(steps)|
      && (forall r :: r in c.history ==> r in log || IsEmitted(r, LastId(log), Emitted(steps)))
      && |c.history| + (if c.emit.Assigned? then 1 else 0) + Burned(steps) == |log| + |Emitted(steps)|
  {
    RunPublishes(Init(log), steps);
    var c := Run(Init(log), steps).core;
    forall r | r in c.history ensures r in log || IsEmitted(r, LastId(log), Emitted(steps)) {
      assert AccountedFor(r, Init(log).core, Emitted(steps));
    }
  }

  // ------------------------------------------------------------ what is lost

  /** No durable write fails along the run, and no event meets a full queue. */
  predicate Unfailing(s: Server, steps: seq<Step>)
    requires IsRun(s, steps)
    decreases |steps|
  {
    steps == [] ||
    (!(steps[0].Serve? && steps[0].cs == PersistAppend(false)) &&
    !(steps[0].Serve? && steps[0].cs.EmitEnqueue? && |s.core.queue| >= PERSIST_BUFFER) &&
    Unfailing(Apply(s, steps[0]), steps[1..]))
  }

  predicate NothingLost(c: Core) {
    && c.lost == {} && c.mark == None
    && !c.emit.EmitMarking? && !c.emit.EmitSwapping? && !c.persist.PersistMarking? && !c.persist.PersistSwapping?
  }

  lemma {:induction false} UnfailingLosesNothing(s: Server, steps: seq<Step>)
    requires NothingLost(s.core) && IsRun(s, steps) && Unfailing(s, steps)
    ensures NothingLost(Run(s, steps).core)
    decreases |steps|
  {
    if steps != [] {
      UnfailingLosesNothing(Apply(s, steps[0]), steps[1..]);
    }
  }

  /** It takes a failed write or a full queue to lose a record or to set the mark: without
      one everything published is in the log, on its way to it or pruned, and once nothing is
      on its way everything published is durable. */
  lemma LossHasACause(log: seq<Rec>, steps: seq<Step>)
    requires StartupLog(log) && IsRun(Init(log), steps) && Unfailing(Init(log), steps)
    ensures var c := Run(Init(log), steps).core;
      && c.lost == {} && c.mark == None
      && (forall r :: r in c.history ==> r in c.log || r in Pending(c) || r.id in c.pruned)
      && (Pending(c) == [] && !c.persist.Written? ==> c.durableID == c.lastPublishedID)
  {
    InitInv(log);
    RunInv(Init(log), steps);
    UnfailingLosesNothing(Init(log), steps);
    LogIsDurable(log, steps);
  }
}
