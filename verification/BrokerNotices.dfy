/** What a stream client is told: every notice it has been sent is true. */
module BrokerNotices {
  import opened Wrappers
  import opened Records
  import opened Broker
  import opened BrokerInvariants

  /** The id has been dealt with and is not in the log; it never will be. */
  ghost predicate NeverLogged(core: Core, id: nat) {
    id <= core.durableID && id !in Ids(core.log)
  }

  /** A gap found in the log names the first id the client was not handed, which is not in
      the log; a gap mark names a lost one; "not_durable" the first id above the client's that
      was not durable; and the channel's overflow no id. */
  ghost predicate NoticeOk(core: Core, c: Client, n: Notice) {
    match n
    case ReplayError => c.ended.BySelf?
    case Resync(reason, missing) =>
      match reason
      case SlowConsumer => missing == 0 && c.ended.ByChannel?
      case NotDurable => c.resume < missing && c.replayed == [] && (missing == c.resume + 1 || missing <= core.durableID + 1)
      case QueueFull => MarkOk(core, c, missing)
      case PersistFailed => MarkOk(core, c, missing)
      case _ =>
        c.resume < missing <= c.watermark && NeverLogged(core, missing) &&
        c.replayed == Between(core.history, c.resume, missing - 1)
  }

  ghost predicate MarkOk(core: Core, c: Client, missing: nat) {
    c.resume < missing <= c.watermark && missing in core.lost && forall r :: r in c.replayed ==> r.id < missing
  }

  /** One notice at most for the replay, and then at most the overflow's. */
  ghost predicate NoticesOk(core: Core, c: Client) {
    && (forall n :: n in c.notices ==> NoticeOk(core, c, n))
    && (|c.notices| <= 1 || (|c.notices| == 2 && c.notices[1] == Resync(SlowConsumer, 0)))
    && (c.notices != [] && c.notices[0] == Resync(SlowConsumer, 0) ==> |c.notices| == 1)
    && (c.ended.Open? ==> |c.notices| <= 1 && Resync(SlowConsumer, 0) !in c.notices)
  }

  /** A replay reads the log only when its range is durable, and its batch holds all of the
      log up to the batch's last id. */
  ghost predicate ReadsOk(core: Core, c: Client) {
    && (c.phase.BatchTop? || c.phase.Unmarked? || c.phase.Locked? || c.phase.Draining? ==>
          core.durableID >= c.watermark)
    && (c.phase.Draining? ==>
          forall r :: r in core.log && c.phase.expected <= r.id <= LastId(c.phase.batch) ==> r in c.phase.batch)
  }

  ghost predicate Truthful(core: Core, c: Client) {
    NoticesOk(core, c) && ReadsOk(core, c)
  }

  predicate MarkSays(core: Core) {
    core.mark.Some? ==> core.mark.value.reason.QueueFull? || core.mark.value.reason.PersistFailed?
  }

  ghost predicate AllTold(core: Core, clients: map<nat, Client>) {
    forall k :: k in clients ==> Truthful(core, clients[k])
  }

  ghost predicate AllTruthful(s: Server) {
    MarkSays(s.core) && AllTold(s.core, s.hub.clients)
  }

  /** What the core may do under a client: the history and the losses grow, durableID too,
      and what joins the log is above it. */
  ghost predicate Grows(c: Core, d: Core) {
    && c.durableID <= d.durableID && c.lost <= d.lost
    && (forall r :: r in d.log ==> r in c.log || r.id > c.durableID)
    && (forall lo: nat, hi: nat :: hi <= LastId(c.history) ==> Between(d.history, lo, hi) == Between(c.history, lo, hi))
  }

  lemma GrowsKeepsTruth(c: Core, d: Core, client: Client)
    requires Grows(c, d) && Truthful(c, client) && client.watermark <= LastId(c.history)
    requires client.phase.Draining? ==> forall r :: r in client.phase.batch ==> r.id <= client.watermark
    ensures Truthful(d, client)
  {
  }

  lemma CoreStepGrows(c: Core, step: CoreStep)
    requires CoreInv(c) && CoreEnabled(c, step)
    ensures Grows(c, CoreApply(c, step))
  {
    var d := CoreApply(c, step);
    if step.PersistAppend? && step.ok {
      assert c.persist.job in Pending(c);
    }
    if step.Prune? {
      assert forall r :: r in d.log ==> r in c.log;
    }
  }

  lemma PublishGrows(c: Core)
    requires CoreInv(c) && c.emit.Assigned?
    ensures Grows(c, CorePublish(c))
  {
  }

  /** A batch holds all of the log up to its last id. */
  lemma BatchHoldsAll(log: seq<Rec>, after: nat, until: nat, limit: nat)
    requires Increasing(log) && 0 < until
    ensures var b := ReplayRange(log, after, until, limit);
      forall r :: r in log && after < r.id <= LastId(b) ==> r in b
  {
    var run, b := Between(log, after, until), ReplayRange(log, after, until, limit);
    BetweenMembers(log, after, until);
    forall r | r in log && after < r.id <= LastId(b) ensures r in b {
      assert b[|b| - 1] in run;
      assert r in run;
      var i :| 0 <= i < |run| && run[i] == r;
      assert b[|b| - 1] == run[|b| - 1];
      assert i < |b| && b[i] == r;
    }
  }

  lemma LockTells(core: Core, live: bool, ch: Channel, c: Client)
    requires CoreInv(core) && ClientOk(core.history, core.closed, live, ch, c) && Truthful(core, c)
    requires HandlerEnabled(core, c, LockAndMin)
    ensures Truthful(core, HandlerApply(core, c, LockAndMin))
  {
    assert forall r :: r in core.log ==> FirstId(core.log) <= r.id;
  }

  lemma NothingBeforeBatch(log: seq<Rec>, batch: seq<Rec>, expected: nat)
    requires batch != [] && Increasing(batch) && expected < batch[0].id
    requires forall r :: r in log && expected <= r.id <= LastId(batch) ==> r in batch
    ensures expected !in Ids(log)
  {
    LastIsGreatest(batch);
    assert batch[0] in batch;
    forall r | r in log ensures r.id != expected {
      assert r.id == expected ==> r in batch;
    }
  }

  lemma TellIsTrue(core: Core, c: Client, reason: Reason, missing: nat)
    requires c.notices == [] && c.ended.Open? && reason != SlowConsumer && NoticeOk(core, c, Resync(reason, missing))
    ensures Truthful(core, Tell(c, reason, missing))
  {
    assert NoticeOk(core, Tell(c, reason, missing), Resync(reason, missing));
  }

  /** A record that is not the expected one: there is none under that id. */
  lemma HoleTells(core: Core, c: Client)
    requires PhaseOk(core.history, c) && c.ended.Open? && ReadsOk(core, c)
    requires HandlerEnabled(core, c, WriteOne) && c.phase.batch[0].id != c.phase.expected
    ensures Truthful(core, HandlerApply(core, c, WriteOne))
  {
    assert c.phase.batch[0] in c.phase.batch;
    NothingBeforeBatch(core.log, c.phase.batch, c.phase.expected);
    TellIsTrue(core, c, Hole, c.phase.expected);
  }

  lemma ReadTells(core: Core, c: Client)
    requires Increasing(core.log) && PhaseOk(core.history, c) && c.ended.Open? && ReadsOk(core, c)
    requires HandlerEnabled(core, c, ReadBatch)
    ensures Truthful(core, HandlerApply(core, c, ReadBatch))
  {
    var a := c.phase.after;
    BetweenMembers(core.log, a, c.watermark);
    if ReplayRange(core.log, a, c.watermark, REPLAY_BATCH) == [] {
      assert Between(core.log, a, c.watermark) == [];
      TellIsTrue(core, c, Missing, a + 1);
    } else {
      BatchHoldsAll(core.log, a, c.watermark, REPLAY_BATCH);
    }
  }

  lemma WriteTells(core: Core, live: bool, ch: Channel, c: Client)
    requires CoreInv(core) && ClientOk(core.history, core.closed, live, ch, c) && Truthful(core, c)
    requires HandlerEnabled(core, c, WriteOne) && c.phase.batch[0].id == c.phase.expected
    ensures Truthful(core, HandlerApply(core, c, WriteOne))
  {
    var batch, d := c.phase.batch, HandlerApply(core, c, WriteOne);
    RestOfBatch(batch);
    assert d.notices == c.notices == [] && d.ended == c.ended;
    RestHolds(core.log, batch);
  }

  lemma RestHolds(log: seq<Rec>, batch: seq<Rec>)
    requires batch != [] && Increasing(batch)
    requires forall r :: r in log && batch[0].id <= r.id <= LastId(batch) ==> r in batch
    ensures |batch| > 1 ==> forall r :: r in log && batch[0].id + 1 <= r.id <= LastId(batch[1..]) ==> r in batch[1..]
  {
    RestOfBatch(batch);
  }

  lemma CheckTells(core: Core, live: bool, ch: Channel, c: Client, hs: HandlerStep)
    requires CoreInv(core) && ClientOk(core.history, core.closed, live, ch, c) && Truthful(core, c)
    requires MarkSays(core)
    requires HandlerEnabled(core, c, hs) && (hs.CheckMark? || hs.Recheck?)
    ensures Truthful(core, HandlerApply(core, c, hs))
  {
    BetweenMembers(core.history, c.resume, if hs.CheckMark? then c.resume else c.phase.after);
  }

  lemma OtherTells(core: Core, live: bool, ch: Channel, c: Client, hs: HandlerStep)
    requires CoreInv(core) && ClientOk(core.history, core.closed, live, ch, c) && Truthful(core, c)
    requires HandlerEnabled(core, c, hs) && (hs.Durable? || hs.GiveUp? || hs.NotDurableExit? || hs.ReadFails? || hs.Leave?)
    ensures Truthful(core, HandlerApply(core, c, hs))
  {
    BetweenMembers(core.history, c.resume, c.resume);
    assert c.phase.GaveUp? ==> c.replayed == [] by {
      BetweenEmpty(core.history, c.resume, c.resume);
    }
  }

  lemma HandlerTells(core: Core, live: bool, ch: Channel, c: Client, hs: HandlerStep)
    requires CoreInv(core) && ClientOk(core.history, core.closed, live, ch, c) && Truthful(core, c)
    requires MarkSays(core)
    requires HandlerEnabled(core, c, hs)
    ensures Truthful(core, HandlerApply(core, c, hs))
  {
    match hs
    case CheckMark => CheckTells(core, live, ch, c, hs);
    case Recheck => CheckTells(core, live, ch, c, hs);
    case LockAndMin => LockTells(core, live, ch, c);
    case ReadBatch => ReadTells(core, c);
    case WriteOne =>
      if c.phase.batch[0].id == c.phase.expected {
        WriteTells(core, live, ch, c);
      } else {
        HoleTells(core, c);
      }
    case _ => OtherTells(core, live, ch, c, hs);
  }

  lemma ReceiveTells(core: Core, hub: Hub, k: nat)
    requires HasClient(hub, k) && hub.clients[k].phase.Tailing? && Truthful(core, hub.clients[k])
    requires hub.clients[k].ended.Open?
    ensures Truthful(core, TakeNext(hub, k).clients[k])
  {
  }

  lemma SubscribeTells(core: Core, hub: Hub, k: nat, from: nat)
    ensures Truthful(core, Register(hub, k, from, core.lastPublishedID).clients[k])
  {
  }

  lemma CoreKeepsTruth(c: Core, d: Core, stopped: bool, hub: Hub)
    requires HubInv(c.history, stopped, hub) && Grows(c, d) && AllTold(c, hub.clients)
    ensures AllTold(d, hub.clients)
  {
    forall k | k in hub.clients ensures Truthful(d, hub.clients[k]) {
      assert ClientOk(c.history, stopped, k in hub.subs, hub.chans[k], hub.clients[k]);
      GrowsKeepsTruth(c, d, hub.clients[k]);
    }
  }

  /** A step that changes one client only. */
  lemma OneTells(core: Core, before: map<nat, Client>, k: nat, c: Client)
    requires AllTold(core, before) && Truthful(core, c)
    ensures AllTold(core, before[k := c])
  {
  }

  lemma CoreStepSays(c: Core, step: CoreStep)
    requires MarkSays(c) && CoreEnabled(c, step)
    ensures MarkSays(CoreApply(c, step))
  {
  }

  lemma HandleTells(core: Core, hub: Hub, k: nat, hs: HandlerStep)
    requires CoreInv(core) && MarkSays(core) && HubInv(core.history, core.closed, hub) && AllTold(core, hub.clients)
    requires HasClient(hub, k) && HandlerEnabled(core, hub.clients[k], hs)
    ensures AllTold(core, hub.clients[k := HandlerApply(core, hub.clients[k], hs)])
  {
    HandlerTells(core, k in hub.subs, hub.chans[k], hub.clients[k], hs);
    OneTells(core, hub.clients, k, HandlerApply(core, hub.clients[k], hs));
  }

  lemma TakeTells(core: Core, hub: Hub, k: nat)
    requires HasClient(hub, k) && hub.clients[k].phase.Tailing? && hub.clients[k].ended.Open?
    requires AllTold(core, hub.clients)
    ensures AllTold(core, TakeNext(hub, k).clients)
  {
    ReceiveTells(core, hub, k);
    OneTells(core, hub.clients, k, TakeNext(hub, k).clients[k]);
    assert TakeNext(hub, k).clients == hub.clients[k := TakeNext(hub, k).clients[k]];
  }

  lemma SubscribeStepTells(core: Core, hub: Hub, k: nat, from: nat)
    requires AllTold(core, hub.clients)
    ensures AllTold(core, Register(hub, k, from, core.lastPublishedID).clients)
  {
    var after := Register(hub, k, from, core.lastPublishedID);
    SubscribeTells(core, hub, k, from);
    OneTells(core, hub.clients, k, after.clients[k]);
    assert after.clients == hub.clients[k := after.clients[k]];
  }

  lemma UnsubscribeTells(core: Core, hub: Hub, k: nat)
    requires HasClient(hub, k) && hub.clients[k].phase.Finished? && AllTold(core, hub.clients)
    ensures AllTold(core, Deregister(hub, k).clients)
  {
    var gone := hub.clients[k].(phase := Gone);
    assert Truthful(core, gone);
    OneTells(core, hub.clients, k, gone);
  }

  lemma StillOpen(s: Server, k: nat)
    requires Inv(s) && HasClient(s.hub, k) && s.hub.clients[k].phase.Tailing?
    ensures s.hub.clients[k].ended.Open?
  {
  }

  lemma StepTells(s: Server, step: Step)
    requires Inv(s) && AllTruthful(s) && Enabled(s, step)
    ensures AllTruthful(Apply(s, step))
  {
    match step
    case Serve(cs) =>
      CoreStepGrows(s.core, cs);
      CoreStepSays(s.core, cs);
      CoreKeepsTruth(s.core, CoreApply(s.core, cs), s.core.closed, s.hub);
    case Publish =>
      PublishGrows(s.core);
      CoreKeepsTruth(s.core, CorePublish(s.core), s.core.closed, s.hub);
    case CloseChannels =>
    case Subscribe(k, from) => SubscribeStepTells(s.core, s.hub, k, from);
    case Handle(k, hs) => HandleTells(s.core, s.hub, k, hs);
    case Receive(k) =>
      StillOpen(s, k);
      TakeTells(s.core, s.hub, k);
    case Unsubscribe(k) => UnsubscribeTells(s.core, s.hub, k);
  }

  lemma {:induction false} RunTells(s: Server, steps: seq<Step>)
    requires Inv(s) && AllTruthful(s) && IsRun(s, steps)
    ensures AllTruthful(Run(s, steps))
    decreases |steps|
  {
    if steps != [] {
      StepTells(s, steps[0]);
      StepInv(s, steps[0]);
      RunTells(Apply(s, steps[0]), steps[1..]);
    }
  }

  /** Over every run, for every client: at most one notice about its replay, and what it says
      stays true; at most one about its channel, the last. */
  lemma NoticesAreTrue(log: seq<Rec>, steps: seq<Step>, k: nat)
    requires StartupLog(log) && IsRun(Init(log), steps) && k in Run(Init(log), steps).hub.clients
    ensures NoticesOk(Run(Init(log), steps).core, Run(Init(log), steps).hub.clients[k])
  {
    InitInv(log);
    RunTells(Init(log), steps);
  }

  /** And at the moment a client is told that its range is not durable, the missing id is the
      first above both its resume id and durableID. */
  lemma NotDurableNamesTheFirst(log: seq<Rec>, steps: seq<Step>, k: nat)
    requires StartupLog(log) && IsRun(Init(log), steps)
    requires k in Run(Init(log), steps).hub.clients && Run(Init(log), steps).hub.clients[k].phase.GaveUp?
    ensures var s := Run(Init(log), steps);
      && Enabled(s, Handle(k, NotDurableExit))
      && var c, d := s.hub.clients[k], Apply(s, Handle(k, NotDurableExit)).hub.clients[k];
        && d.notices != [] && d.notices[0].Resync? && d.notices[0].reason == NotDurable
        && d.notices[0].missing == (if s.core.durableID > c.resume then s.core.durableID else c.resume) + 1
  {
    InitInv(log);
    RunInv(Init(log), steps);
  }
}
