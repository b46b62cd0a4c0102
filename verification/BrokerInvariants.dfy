/** What every reachable state of the broker keeps. */
module BrokerInvariants {
  import opened Wrappers
  import opened Records
  import opened Broker

  /** The records on their way to the log: in the persister's hands, queued, or
      published and about to be queued. */
  function Pending(c: Core): seq<Rec> {
    (if c.persist.Writing? then [c.persist.job] else []) + c.queue
    + (if c.emit.Announced? then [c.emit.rec] else [])
  }

  ghost predicate Sequenced(c: Core) {
    && Increasing(c.history) && Positive(c.history)
    && c.durableID <= c.lastPublishedID == LastId(c.history) <= c.eventSeq
    && (c.emit.Assigned? ==> c.lastPublishedID < c.emit.rec.id == c.eventSeq)
    && (c.emit.Announced? ==> c.emit.rec.id == c.lastPublishedID)
    && (c.closed ==> c.emit.EmitIdle?)
  }

  /** The log holds published records only; what is pending lies above it in id order. */
  ghost predicate Piped(c: Core) {
    && Increasing(c.log) && (forall r :: r in c.log ==> r in c.history)
    && Increasing(Pending(c))
    && (forall r :: r in Pending(c) ==> r in c.history && c.durableID < r.id && LastId(c.log) < r.id)
    && (c.persist.Written? ==>
          && c.persist.job in c.history && c.durableID < c.persist.job.id
          && LastId(c.log) <= c.persist.job.id
          && forall r :: r in Pending(c) ==> c.persist.job.id < r.id)
  }

  ghost predicate AtOrAboveMark(c: Core, id: nat) {
    c.mark.Some? && c.mark.value.id <= id
  }

  ghost predicate BeingMarked(c: Core, id: nat) {
    || (c.emit.EmitMarking? && c.emit.id == id) || (c.emit.EmitSwapping? && c.emit.id == id)
    || (c.persist.PersistMarking? && c.persist.id == id) || (c.persist.PersistSwapping? && c.persist.id == id)
  }

  /** The mark is the id of a lost record, and every lost record is at or above it,
      but for the one a marker is still working on. */
  ghost predicate Marked(c: Core) {
    && (c.mark.Some? ==> c.mark.value.id in c.lost)
    && (forall id :: id in c.lost ==> 0 < id <= c.lastPublishedID && (AtOrAboveMark(c, id) || BeingMarked(c, id)))
    && (forall id :: BeingMarked(c, id) ==> id in c.lost)
    && (c.emit.EmitSwapping? ==> !AlreadyMarked(c.emit.seen, c.emit.id))
    && (c.persist.PersistSwapping? ==> !AlreadyMarked(c.persist.seen, c.persist.id))
  }

  /** Lost ids are neither in the log nor on their way to it. */
  ghost predicate LostForGood(c: Core) {
    && (forall r :: r in c.log ==> r.id !in c.lost)
    && (forall r :: r in Pending(c) ==> r.id !in c.lost)
  }

  ghost predicate Accounted(c: Core) {
    forall r :: r in c.history ==> r in c.log || r in Pending(c) || r.id in c.pruned || r.id in c.lost
  }

  ghost predicate LostWerePublished(c: Core) {
    forall id :: id in c.lost ==> id in Ids(c.history)
  }

  ghost predicate CoreInv(c: Core) {
    Sequenced(c) && Piped(c) && Marked(c) && LostForGood(c) && Accounted(c) && LostWerePublished(c)
  }

  /** A handler that has replayed exactly the records up to `upTo`. */
  ghost predicate Replaying(h: seq<Rec>, c: Client, upTo: nat) {
    && 0 < c.resume <= upTo < c.watermark
    && c.replayed == Between(h, c.resume, upTo)
    && c.tailed == [] && c.notices == [] && !c.caughtUp
  }

  ghost predicate PhaseOk(h: seq<Rec>, c: Client) {
    match c.phase
    case PreCheck => Replaying(h, c, c.resume)
    case Waiting => Replaying(h, c, c.resume)
    case GaveUp => Replaying(h, c, c.resume)
    case BatchTop(a) => Replaying(h, c, a)
    case Unmarked(a) => Replaying(h, c, a)
    case Locked(a) => Replaying(h, c, a)
    case Draining(batch, e) =>
      && e > 0 && Replaying(h, c, e - 1)
      && batch != [] && Increasing(batch)
      && forall r :: r in batch ==> r in h && e <= r.id <= c.watermark
    case _ => true
  }

  ghost predicate ChannelOk(live: bool, ch: Channel) {
    !ch.broken && (live <==> !ch.closed) && (ch.overflowed ==> ch.closed) && |ch.buf| <= SUBSCRIBER_BUFFER
  }

  /** A channel closed without an overflow under a handler that still reads it was
      closed by Server.Close, with everything published either taken or buffered. */
  ghost predicate EndingOk(h: seq<Rec>, stopped: bool, live: bool, ch: Channel, c: Client) {
    && (!live && !ch.overflowed && !c.phase.Gone? ==> stopped && c.tailed + ch.buf == Above(h, c.watermark))
    && (c.ended.ByChannel? ==> c.notices != [] || (c.caughtUp && stopped && c.tailed == Above(h, c.watermark)))
    && (c.ended.ByChannel? ==> !live && (ch.overflowed ==> c.notices != []))
    && (c.ended.Open? <==> !c.phase.Finished? && !c.phase.Gone?)
  }

  /** One client against the publication history; `live` says whether its channel is
      still registered, `stopped` whether the server is closing. */
  ghost predicate ClientOk(h: seq<Rec>, stopped: bool, live: bool, ch: Channel, c: Client) {
    && EndingOk(h, stopped, live, ch, c)
    && ChannelOk(live, ch)
    && c.watermark <= LastId(h)
    && c.tailed + ch.buf <= Above(h, c.watermark)
    && (live ==> c.tailed + ch.buf == Above(h, c.watermark))
    && c.replayed <= Between(h, c.From(), c.watermark)
    && (c.caughtUp ==> c.replayed == Between(h, c.From(), c.watermark))
    && (c.tailed != [] || c.phase.Tailing? ==> c.caughtUp || c.notices != [])
    && PhaseOk(h, c)
  }

  ghost predicate HubInv(h: seq<Rec>, stopped: bool, hub: Hub) {
    && hub.subs <= hub.chans.Keys == hub.clients.Keys
    && forall k :: k in hub.clients ==> ClientOk(h, stopped, k in hub.subs, hub.chans[k], hub.clients[k])
  }

  ghost predicate Inv(s: Server) {
    CoreInv(s.core) && HubInv(s.core.history, s.core.closed, s.hub)
  }

  lemma InitInv(log: seq<Rec>)
    requires StartupLog(log)
    ensures Inv(Init(log))
  {
  }

  // ---------------------------------------------------------------- the core

  lemma StepKeepsSequence(c: Core, step: CoreStep)
    requires Sequenced(c) && CoreEnabled(c, step)
    requires c.persist.Written? ==> c.persist.job in c.history
    ensures Sequenced(CoreApply(c, step)) && CoreApply(c, step).history == c.history
  {
  }

  lemma HeadIncreasing(x: Rec, rest: seq<Rec>)
    requires Increasing([x] + rest)
    ensures Increasing(rest) && forall r :: r in rest ==> x.id < r.id
  {
    var all := [x] + rest;
    forall i | 0 <= i < |rest| ensures all[i + 1] == rest[i] && x.id < rest[i].id { assert all[0] == x; }
    forall i, j | 0 <= i < j < |rest| ensures rest[i].id < rest[j].id { assert all[i + 1].id < all[j + 1].id; }
  }

  lemma LastIncreasing(front: seq<Rec>, x: Rec)
    requires Increasing(front + [x])
    ensures Increasing(front) && forall r :: r in front ==> r.id < x.id
  {
    var all := front + [x];
    forall i | 0 <= i < |front| ensures front[i].id < x.id { assert all[i].id < all[|front|].id; }
    forall i, j | 0 <= i < j < |front| ensures front[i].id < front[j].id { assert all[i].id < all[j].id; }
  }

  ghost predicate PipeInv(c: Core) {
    Piped(c) && LostForGood(c) && Accounted(c)
  }

  /** Steps that move nothing between queue, persister and log keep the pipe in order. */
  lemma FrameKeepsPipe(c: Core, c': Core)
    requires PipeInv(c) && Pending(c') == Pending(c)
    requires c'.log == c.log && c'.history == c.history && c'.lost == c.lost && c'.pruned == c.pruned
    requires c'.durableID == c.durableID || (c.persist.Written? && c'.durableID == c.persist.job.id)
    requires c'.persist.Written? ==> c'.persist == c.persist && c'.durableID == c.durableID
    ensures PipeInv(c')
  {
  }

  lemma EnqueueDrops(c: Core)
    requires PipeInv(c) && c.emit.Announced? && |c.queue| >= PERSIST_BUFFER
    ensures PipeInv(CoreApply(c, EmitEnqueue))
  {
    var c' := CoreApply(c, EmitEnqueue);
    assert Pending(c) == Pending(c') + [c.emit.rec];
    LastIncreasing(Pending(c'), c.emit.rec);
    assert c.emit.rec in Pending(c);
    LastIsGreatest(c.log);
  }

  lemma EnqueueKeepsPipe(c: Core)
    requires PipeInv(c) && c.emit.Announced?
    ensures PipeInv(CoreApply(c, EmitEnqueue))
  {
    var c' := CoreApply(c, EmitEnqueue);
    if |c.queue| < PERSIST_BUFFER {
      assert Pending(c') == Pending(c);
      FrameKeepsPipe(c, c');
    } else {
      EnqueueDrops(c);
    }
  }

  lemma TakeKeepsPipe(c: Core)
    requires PipeInv(c) && c.persist.PersistIdle? && c.queue != []
    ensures PipeInv(CoreApply(c, PersistTake))
  {
    assert [c.queue[0]] + c.queue[1..] == c.queue;
    assert Pending(CoreApply(c, PersistTake)) == Pending(c);
  }

  lemma TakingTheJob(c: Core)
    requires Piped(c) && c.persist.Writing?
    ensures var rest := Pending(c.(persist := PersistIdle));
      && Pending(c) == [c.persist.job] + rest && c.persist.job in Pending(c)
      && Increasing(rest) && (forall r :: r in rest ==> r in Pending(c) && r.id > c.persist.job.id)
      && (forall r :: r in Pending(c) ==> r in rest || r == c.persist.job)
  {
    var rest := Pending(c.(persist := PersistIdle));
    assert Pending(c) == [c.persist.job] + rest;
    HeadIncreasing(c.persist.job, rest);
  }

  lemma AppendSucceeds(c: Core)
    requires PipeInv(c) && c.persist.Writing?
    ensures PipeInv(CoreApply(c, PersistAppend(true)))
  {
    var c' := CoreApply(c, PersistAppend(true));
    TakingTheJob(c);
    assert Pending(c') == Pending(c.(persist := PersistIdle));
    LastIsGreatest(c.log);
    SnocIncreasing(c.log, c.persist.job);
  }

  lemma AppendFails(c: Core)
    requires PipeInv(c) && c.persist.Writing?
    ensures PipeInv(CoreApply(c, PersistAppend(false)))
  {
    var c' := CoreApply(c, PersistAppend(false));
    TakingTheJob(c);
    assert Pending(c') == Pending(c.(persist := PersistIdle));
    LastIsGreatest(c.log);
  }

  lemma AppendKeepsPipe(c: Core, ok: bool)
    requires PipeInv(c) && c.persist.Writing?
    ensures PipeInv(CoreApply(c, PersistAppend(ok)))
  {
    if ok {
      AppendSucceeds(c);
    } else {
      AppendFails(c);
    }
  }

  lemma PruneKeepsPipe(c: Core, n: nat)
    requires PipeInv(c) && n <= |c.log|
    ensures PipeInv(CoreApply(c, Prune(n)))
  {
  }

  lemma StepKeepsPipe(c: Core, step: CoreStep)
    requires PipeInv(c) && CoreEnabled(c, step)
    ensures PipeInv(CoreApply(c, step))
  {
    match step
    case EmitEnqueue => EnqueueKeepsPipe(c);
    case PersistTake => TakeKeepsPipe(c);
    case PersistAppend(ok) => AppendKeepsPipe(c, ok);
    case Prune(n) => PruneKeepsPipe(c, n);
    case _ =>
      PlainStep(c, step);
      FrameKeepsPipe(c, CoreApply(c, step));
  }

  /** The other steps leave queue, log and history as they are. */
  lemma PlainStep(c: Core, step: CoreStep)
    requires CoreEnabled(c, step) && !step.EmitEnqueue? && !step.PersistTake? && !step.PersistAppend? && !step.Prune?
    ensures var c' := CoreApply(c, step);
      && Pending(c') == Pending(c)
      && c'.log == c.log && c'.history == c.history && c'.lost == c.lost && c'.pruned == c.pruned
      && (c'.durableID == c.durableID || (c.persist.Written? && c'.durableID == c.persist.job.id))
      && (c'.persist.Written? ==> c'.persist == c.persist && c'.durableID == c.durableID)
  {
  }

  /** A record lost is being marked at once; nothing else about the marks moves. */
  lemma LostIsBeingMarked(c: Core, c': Core, id: nat)
    requires Marked(c) && c'.mark == c.mark && c'.lastPublishedID == c.lastPublishedID
    requires c'.lost == c.lost || (c'.lost == c.lost + {id} && BeingMarked(c', id) && 0 < id <= c.lastPublishedID)
    requires forall i :: BeingMarked(c, i) ==> BeingMarked(c', i)
    requires forall i :: BeingMarked(c', i) ==> BeingMarked(c, i) || i in c'.lost
    requires c'.emit.EmitSwapping? ==> c'.emit == c.emit
    requires c'.persist.PersistSwapping? ==> c'.persist == c.persist
    ensures Marked(c')
  {
  }

  lemma LosingKeepsMark(c: Core, step: CoreStep)
    requires CoreInv(c) && CoreEnabled(c, step) && (step.EmitEnqueue? || step.PersistAppend?)
    ensures Marked(CoreApply(c, step))
  {
    LastIsGreatest(c.history);
    var r := if step.EmitEnqueue? then c.emit.rec else c.persist.job;
    assert r in Pending(c) && r in c.history;
    LostIsBeingMarked(c, CoreApply(c, step), r.id);
  }

  lemma MarkingKeepsMark(c: Core, step: CoreStep)
    requires CoreInv(c) && CoreEnabled(c, step)
    requires step.EmitLoadMark? || step.EmitSwapMark? || step.PersistLoadMark? || step.PersistSwapMark?
    ensures Marked(CoreApply(c, step))
  {
    var c' := CoreApply(c, step);
    var own := if step.EmitLoadMark? || step.EmitSwapMark? then c.emit.id else c.persist.id;
    assert BeingMarked(c, own);
    assert BeingMarked(c', own) || AtOrAboveMark(c', own);
    forall id | BeingMarked(c', id) ensures BeingMarked(c, id) { }
    forall id | AtOrAboveMark(c, id) ensures AtOrAboveMark(c', id) { }
    forall id | id in c.lost && BeingMarked(c, id) ensures AtOrAboveMark(c', id) || BeingMarked(c', id) { }
  }

  lemma StepKeepsMark(c: Core, step: CoreStep)
    requires CoreInv(c) && CoreEnabled(c, step)
    ensures Marked(CoreApply(c, step))
  {
    if step.EmitEnqueue? || step.PersistAppend? {
      LosingKeepsMark(c, step);
    } else if step.EmitLoadMark? || step.EmitSwapMark? || step.PersistLoadMark? || step.PersistSwapMark? {
      MarkingKeepsMark(c, step);
    } else {
      var c' := CoreApply(c, step);
      forall id ensures BeingMarked(c', id) <==> BeingMarked(c, id) { }
      forall id ensures AtOrAboveMark(c', id) <==> AtOrAboveMark(c, id) { }
    }
  }

  lemma StepKeepsLostPublished(c: Core, step: CoreStep)
    requires Piped(c) && LostWerePublished(c) && CoreEnabled(c, step)
    ensures LostWerePublished(CoreApply(c, step))
  {
  }

  lemma CoreStepInv(c: Core, step: CoreStep)
    requires CoreInv(c) && CoreEnabled(c, step)
    ensures CoreInv(CoreApply(c, step)) && CoreApply(c, step).history == c.history
  {
    StepKeepsSequence(c, step);
    StepKeepsPipe(c, step);
    StepKeepsMark(c, step);
    StepKeepsLostPublished(c, step);
  }

  lemma PublishCoreInv(c: Core)
    requires CoreInv(c) && c.emit.Assigned?
    ensures CoreInv(CorePublish(c))
  {
    var c', r := CorePublish(c), c.emit.rec;
    LastIsGreatest(c.history);
    SnocIncreasing(c.history, r);
    assert Pending(c') == Pending(c) + [r];
    if Pending(c) != [] {
      assert Pending(c)[|Pending(c)| - 1] in Pending(c);
    }
    SnocIncreasing(Pending(c), r);
    if c.log != [] {
      assert c.log[|c.log| - 1] in c.log;
    }
    forall id ensures BeingMarked(c', id) <==> BeingMarked(c, id) { }
    forall id ensures AtOrAboveMark(c', id) <==> AtOrAboveMark(c, id) { }
  }

  // ---------------------------------------------------------------- the clients

  /** Publishing one more record keeps a client in order: a live channel with room
      gets it, a full one overflows and is closed, a gone one is left alone. */
  lemma PublishKeepsClient(h: seq<Rec>, live: bool, ch: Channel, c: Client, r: Rec)
    requires ClientOk(h, false, live, ch, c) && LastId(h) < r.id
    ensures ClientOk(h + [r], false, live && HasRoom(ch), if live then Offer(ch, r) else ch, c)
  {
  }

  lemma ReplayRangeMembers(log: seq<Rec>, after: nat, until: nat, limit: nat)
    requires Increasing(log)
    ensures var b := ReplayRange(log, after, until, limit);
            Increasing(b) && forall r :: r in b ==> r in log && after < r.id && (until > 0 ==> r.id <= until)
  {
    BetweenMembers(log, after, until);
    AboveMembers(log, after);
  }

  /** Writing the expected record moves the replay position by exactly one id. */
  lemma WriteAdvances(core: Core, c: Client)
    requires Increasing(core.history) && PhaseOk(core.history, c) && HandlerEnabled(core, c, WriteOne)
    requires c.phase.batch[0].id == c.phase.expected
    ensures var c' := HandlerApply(core, c, WriteOne);
            && PhaseOk(core.history, c')
            && c'.replayed == Between(core.history, c.resume, c.phase.expected)
            && c'.replayed <= Between(core.history, c.resume, c.watermark)
            && (c'.caughtUp ==> c'.replayed == Between(core.history, c.resume, c.watermark))
  {
    var h, batch, e := core.history, c.phase.batch, c.phase.expected;
    var r := batch[0];
    assert r in batch;
    BetweenExtend(h, c.resume, r);
    BetweenPrefix(h, c.resume, e, c.watermark);
    RestOfBatch(batch);
    assert |batch| > 1 ==> batch[1] in batch[1..];
  }

  lemma RestOfBatch(batch: seq<Rec>)
    requires batch != [] && Increasing(batch)
    ensures Increasing(batch[1..]) && batch == [batch[0]] + batch[1..]
    ensures forall x :: x in batch[1..] ==> x in batch && x.id > batch[0].id
  {
  }

  lemma WriteKeepsClient(core: Core, live: bool, ch: Channel, c: Client)
    requires Increasing(core.history) && HandlerEnabled(core, c, WriteOne)
    requires ClientOk(core.history, core.closed, live, ch, c)
    ensures ClientOk(core.history, core.closed, live, ch, HandlerApply(core, c, WriteOne))
  {
    if c.phase.batch[0].id == c.phase.expected {
      WriteAdvances(core, c);
    }
  }

  lemma ReadKeepsClient(core: Core, live: bool, ch: Channel, c: Client)
    requires CoreInv(core) && ClientOk(core.history, core.closed, live, ch, c) && HandlerEnabled(core, c, ReadBatch)
    ensures ClientOk(core.history, core.closed, live, ch, HandlerApply(core, c, ReadBatch))
  {
    ReplayRangeMembers(core.log, c.phase.after, c.watermark, REPLAY_BATCH);
  }

  lemma HandlerKeepsClient(core: Core, live: bool, ch: Channel, c: Client, step: HandlerStep)
    requires CoreInv(core) && ClientOk(core.history, core.closed, live, ch, c) && HandlerEnabled(core, c, step)
    ensures ClientOk(core.history, core.closed, live, ch, HandlerApply(core, c, step))
  {
    if step.WriteOne? {
      WriteKeepsClient(core, live, ch, c);
    } else if step.ReadBatch? {
      ReadKeepsClient(core, live, ch, c);
    }
  }

  lemma PublishKeepsHub(core: Core, hub: Hub)
    requires CoreInv(core) && HubInv(core.history, core.closed, hub) && core.emit.Assigned?
    ensures HubInv(core.history + [core.emit.rec], false, FanOut(hub, core.emit.rec))
  {
    forall k | k in hub.clients
      ensures ClientOk(core.history + [core.emit.rec], false, k in FanOut(hub, core.emit.rec).subs,
                       FanOut(hub, core.emit.rec).chans[k], hub.clients[k])
    {
      PublishKeepsClient(core.history, k in hub.subs, hub.chans[k], hub.clients[k], core.emit.rec);
    }
  }

  lemma RegisteredIsOk(h: seq<Rec>, stopped: bool, hub: Hub, k: nat, from: nat)
    requires Increasing(h)
    ensures var after := Register(hub, k, from, LastId(h)); ClientOk(h, stopped, true, after.chans[k], after.clients[k])
  {
    AboveEmpty(h, LastId(h));
    BetweenEmpty(h, from, from);
    if !(from > 0 && from < LastId(h)) {
      BetweenEmpty(h, if from == 0 then LastId(h) else from, LastId(h));
    }
  }

  lemma RegisterKeepsHub(core: Core, hub: Hub, k: nat, from: nat)
    requires CoreInv(core) && HubInv(core.history, core.closed, hub) && k !in hub.clients
    ensures HubInv(core.history, core.closed, Register(hub, k, from, core.lastPublishedID))
  {
    RegisteredIsOk(core.history, core.closed, hub, k, from);
  }

  lemma TakeKeepsClient(h: seq<Rec>, stopped: bool, hub: Hub, k: nat)
    requires HasClient(hub, k) && hub.clients[k].phase.Tailing? && (hub.chans[k].buf != [] || hub.chans[k].closed)
    requires ClientOk(h, stopped, k in hub.subs, hub.chans[k], hub.clients[k])
    ensures ClientOk(h, stopped, k in hub.subs, TakeNext(hub, k).chans[k], TakeNext(hub, k).clients[k])
  {
  }

  lemma TakeKeepsHub(h: seq<Rec>, stopped: bool, hub: Hub, k: nat)
    requires HubInv(h, stopped, hub) && HasClient(hub, k) && hub.clients[k].phase.Tailing?
    requires hub.chans[k].buf != [] || hub.chans[k].closed
    ensures HubInv(h, stopped, TakeNext(hub, k))
  {
    TakeKeepsClient(h, stopped, hub, k);
  }

  lemma CloseKeepsHub(h: seq<Rec>, hub: Hub)
    requires HubInv(h, true, hub)
    ensures HubInv(h, true, CloseAll(hub))
  {
  }

  lemma DeregisterKeepsHub(h: seq<Rec>, stopped: bool, hub: Hub, k: nat)
    requires HubInv(h, stopped, hub) && HasClient(hub, k) && hub.clients[k].phase.Finished?
    ensures HubInv(h, stopped, Deregister(hub, k))
  {
    var hub' := Deregister(hub, k);
    assert ClientOk(h, stopped, k in hub'.subs, hub'.chans[k], hub'.clients[k]);
  }

  lemma HandleKeepsHub(core: Core, hub: Hub, k: nat, hs: HandlerStep)
    requires CoreInv(core) && HubInv(core.history, core.closed, hub)
    requires HasClient(hub, k) && HandlerEnabled(core, hub.clients[k], hs)
    ensures HubInv(core.history, core.closed, hub.(clients := hub.clients[k := HandlerApply(core, hub.clients[k], hs)]))
  {
    HandlerKeepsClient(core, k in hub.subs, hub.chans[k], hub.clients[k], hs);
  }

  /** Beginning to close, like any other step of the core, takes nothing from a client. */
  lemma CoreStepKeepsHub(h: seq<Rec>, stopped: bool, stopped': bool, hub: Hub)
    requires HubInv(h, stopped, hub) && (stopped ==> stopped')
    ensures HubInv(h, stopped', hub)
  {
  }

  lemma StepInv(s: Server, step: Step)
    requires Inv(s) && Enabled(s, step)
    ensures Inv(Apply(s, step))
  {
    match step
    case Serve(cs) =>
      CoreStepInv(s.core, cs);
      CoreStepKeepsHub(s.core.history, s.core.closed, CoreApply(s.core, cs).closed, s.hub);
    case Publish =>
      PublishCoreInv(s.core);
      PublishKeepsHub(s.core, s.hub);
    case CloseChannels => CloseKeepsHub(s.core.history, s.hub);
    case Subscribe(k, from) => RegisterKeepsHub(s.core, s.hub, k, from);
    case Handle(k, hs) => HandleKeepsHub(s.core, s.hub, k, hs);
    case Receive(k) => TakeKeepsHub(s.core.history, s.core.closed, s.hub, k);
    case Unsubscribe(k) => DeregisterKeepsHub(s.core.history, s.core.closed, s.hub, k);
  }

  /** Every state of every run satisfies the invariant. */
  lemma {:induction false} RunInv(s: Server, steps: seq<Step>)
    requires Inv(s) && IsRun(s, steps)
    ensures Inv(Run(s, steps))
    decreases |steps|
  {
    if steps != [] {
      StepInv(s, steps[0]);
      RunInv(Apply(s, steps[0]), steps[1..]);
    }
  }
}
