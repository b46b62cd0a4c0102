/** The live-event broker as a step system: Emit, the background persister, log
    pruning, subscription, the reconnect replay and the live tail, at the grain at
    which they interleave in the source (every lock section, atomic load, CAS and
    channel operation is a step of its own). A run is any sequence of enabled steps. */
module Broker {
  import opened Wrappers
  import opened Records

  const SUBSCRIBER_BUFFER: nat := 256
  const MAX_SUBSCRIBERS: nat := 1024
  const PERSIST_BUFFER: nat := 4096

  /** The smallest published id known to be missing from the event log. */
  datatype Mark = Mark(id: nat, reason: Reason)

  datatype Reason = QueueFull | PersistFailed | NotDurable | Pruned | Missing | Hole | SlowConsumer

  /** Where the one Emit inside emitMu stands. */
  datatype EmitPhase =
    | EmitIdle
    | Assigned(rec: Rec)
    | Announced(rec: Rec)
    | EmitMarking(id: nat)
    | EmitSwapping(id: nat, seen: Option<Mark>)

  /** Where the single persister goroutine stands. */
  datatype PersistPhase =
    | PersistIdle
    | Writing(job: Rec)
    | Written(job: Rec)
    | PersistMarking(id: nat)
    | PersistSwapping(id: nat, seen: Option<Mark>)
    | PersistDone

  /** A subscriber's buffered channel. `broken` records what Go would panic on: a
      send after close, or a second close. */
  datatype Channel = Channel(buf: seq<Rec>, closed: bool, overflowed: bool, broken: bool)

  function Send(ch: Channel, r: Rec): Channel {
    if ch.closed then ch.(broken := true) else ch.(buf := ch.buf + [r])
  }

  function Close(ch: Channel): Channel {
    if ch.closed then ch.(broken := true) else ch.(closed := true)
  }

  /** One subscriber's share of a fan-out: a non-blocking send, or, when the buffer
      is full, the overflow flag and the close. */
  function Offer(ch: Channel, r: Rec): Channel {
    if |ch.buf| < SUBSCRIBER_BUFFER then Send(ch, r)
    else Close(ch.(overflowed := true))
  }

  predicate HasRoom(ch: Channel) {
    |ch.buf| < SUBSCRIBER_BUFFER
  }

  /** Where a stream handler stands. `Locked` is the only phase holding replayMu. */
  datatype Phase =
    | PreCheck
    | Waiting
    | GaveUp
    | BatchTop(after: nat)
    | Unmarked(after: nat)
    | Locked(after: nat)
    | Draining(batch: seq<Rec>, expected: nat)
    | Tailing
    | Finished
    | Gone

  datatype Notice =
    | Resync(reason: Reason, missing: nat)
    | ReplayError

  /** Why a handler returned: its channel was closed under it, or it left by itself
      (request over, failed write, failed read). */
  datatype Ending = Open | ByChannel | BySelf

  /** One stream handler: its resume id (0 when the client does not resume), the
      watermark it registered at, the records it took from the log and from its
      channel (before watch and status filtering), and the notices it sent. */
  datatype Client = Client(
    resume: nat,
    watermark: nat,
    phase: Phase,
    replayed: seq<Rec>,
    tailed: seq<Rec>,
    caughtUp: bool,
    notices: seq<Notice>,
    ended: Ending)
  {
    function Handed(): seq<Rec> {
      replayed + tailed
    }

    /** The id above which the client is to be handed everything. */
    function From(): nat {
      if resume == 0 then watermark else resume
    }
  }

  /** The part of the server behind Emit, the persister and the log. `history` is
      every record ever handed to publishEvent, after the records the log held at
      startup; `pruned` and `lost` are the ids retention deleted and the ids whose
      durable write never happened. */
  datatype Core = Core(
    eventSeq: nat,
    lastPublishedID: nat,
    durableID: nat,
    mark: Option<Mark>,
    queue: seq<Rec>,
    log: seq<Rec>,
    emit: EmitPhase,
    persist: PersistPhase,
    closed: bool,
    history: seq<Rec>,
    pruned: set<nat>,
    lost: set<nat>)

  /** The part behind eventsMu, and the handlers it serves. */
  datatype Hub = Hub(subs: set<nat>, chans: map<nat, Channel>, clients: map<nat, Client>)

  datatype Server = Server(core: Core, hub: Hub)

  /** NewServer: the sequence, the watermark and durableID start at the log's LastID. */
  function Init(log: seq<Rec>): Server {
    var last := LastId(log);
    Server(Core(last, last, last, None, [], log, EmitIdle, PersistIdle, false, log, {}, {}),
           Hub({}, map[], map[]))
  }

  /** A log as the server finds it at startup. */
  predicate StartupLog(log: seq<Rec>) {
    Increasing(log) && Positive(log)
  }

  // ------------------------------------------------------------ emit, persist, prune

  datatype CoreStep =
    | EmitAssign(ev: LiveEvent)
    | EmitBurn
    | EmitEnqueue
    | EmitLoadMark
    | EmitSwapMark
    | PersistTake
    | PersistAppend(ok: bool)
    | PersistStore
    | PersistLoadMark
    | PersistSwapMark
    | PersistExit
    | Prune(n: nat)
    | CloseBegin

  /** Whether a marker that loaded `seen` leaves the mark as it is. */
  predicate AlreadyMarked(seen: Option<Mark>, id: nat) {
    seen.Some? && seen.value.id != 0 && seen.value.id <= id
  }

  predicate CoreEnabled(c: Core, step: CoreStep) {
    match step
    case EmitAssign(_) => c.emit.EmitIdle? && !c.closed
    case EmitBurn => c.emit.Assigned?
    case EmitEnqueue => c.emit.Announced?
    case EmitLoadMark => c.emit.EmitMarking?
    case EmitSwapMark => c.emit.EmitSwapping?
    case PersistTake => c.persist.PersistIdle? && c.queue != []
    case PersistAppend(_) => c.persist.Writing?
    case PersistStore => c.persist.Written?
    case PersistLoadMark => c.persist.PersistMarking?
    case PersistSwapMark => c.persist.PersistSwapping?
    case PersistExit => c.persist.PersistIdle? && c.queue == [] && c.closed
    case Prune(n) => n <= |c.log|
    case CloseBegin => c.emit.EmitIdle? && !c.closed
  }

  function CoreApply(c: Core, step: CoreStep): Core
    requires CoreEnabled(c, step)
  {
    match step
    case EmitAssign(ev) =>
      c.(eventSeq := c.eventSeq + 1, emit := Assigned(Rec(c.eventSeq + 1, ev)))
    case EmitBurn =>
      c.(emit := EmitIdle)
    case EmitEnqueue =>
      if |c.queue| < PERSIST_BUFFER then c.(queue := c.queue + [c.emit.rec], emit := EmitIdle)
      else c.(emit := EmitMarking(c.emit.rec.id), lost := c.lost + {c.emit.rec.id})
    case EmitLoadMark =>
      if AlreadyMarked(c.mark, c.emit.id) then c.(emit := EmitIdle)
      else c.(emit := EmitSwapping(c.emit.id, c.mark))
    case EmitSwapMark =>
      if c.mark == c.emit.seen then c.(mark := Some(Mark(c.emit.id, QueueFull)), emit := EmitIdle)
      else c.(emit := EmitMarking(c.emit.id))
    case PersistTake =>
      c.(persist := Writing(c.queue[0]), queue := c.queue[1..])
    case PersistAppend(ok) =>
      if ok then c.(log := c.log + [c.persist.job], persist := Written(c.persist.job))
      else c.(persist := PersistMarking(c.persist.job.id), lost := c.lost + {c.persist.job.id})
    case PersistStore =>
      c.(durableID := c.persist.job.id, persist := PersistIdle)
    case PersistLoadMark =>
      if AlreadyMarked(c.mark, c.persist.id) then c.(persist := PersistIdle)
      else c.(persist := PersistSwapping(c.persist.id, c.mark))
    case PersistSwapMark =>
      if c.mark == c.persist.seen then c.(mark := Some(Mark(c.persist.id, PersistFailed)), persist := PersistIdle)
      else c.(persist := PersistMarking(c.persist.id))
    case PersistExit =>
      c.(persist := PersistDone)
    case Prune(n) =>
      c.(log := c.log[n..], pruned := c.pruned + Ids(c.log[..n]))
    case CloseBegin =>
      c.(closed := true)
  }

  /** publishEvent's own state: the watermark follows the id, and the record joins
      the history. */
  function CorePublish(c: Core): Core
    requires c.emit.Assigned?
  {
    var r := c.emit.rec;
    c.(emit := Announced(r),
       history := c.history + [r],
       lastPublishedID := if r.id > c.lastPublishedID then r.id else c.lastPublishedID)
  }

  // ------------------------------------------------------------ stream handlers

  datatype HandlerStep =
    | CheckMark
    | Durable
    | GiveUp
    | NotDurableExit
    | Recheck
    | LockAndMin
    | ReadBatch
    | ReadFails
    | WriteOne
    | Leave

  /** replayGapInRange: the mark, when it lies inside (after, until]. */
  function GapInRange(mark: Option<Mark>, after: nat, until: nat): (gap: Option<Mark>)
    ensures gap.Some? <==> mark.Some? && after < mark.value.id && (until > 0 ==> mark.value.id <= until)
    ensures gap.Some? ==> gap == mark
  {
    if mark.None? || mark.value.id == 0 || mark.value.id <= after then None
    else if until > 0 && mark.value.id > until then None
    else mark
  }

  /** The records a cursor sought to after+1 yields, bounded by until and limit. */
  function ReplayRange(log: seq<Rec>, after: nat, until: nat, limit: nat): seq<Rec> {
    Take(Selected(log, after, until), limit)
  }

  function FinishReplay(c: Client): Client {
    c.(phase := Tailing, caughtUp := true)
  }

  function Tell(c: Client, reason: Reason, missing: nat): Client {
    c.(phase := Tailing, notices := c.notices + [Resync(reason, missing)])
  }

  predicate HandlerEnabled(core: Core, c: Client, step: HandlerStep) {
    match step
    case CheckMark => c.phase.PreCheck?
    case Durable => c.phase.Waiting? && core.durableID >= c.watermark
    case GiveUp => c.phase.Waiting? && core.durableID < c.watermark
    case NotDurableExit => c.phase.GaveUp?
    case Recheck => c.phase.BatchTop?
    case LockAndMin => c.phase.Unmarked?
    case ReadBatch => c.phase.Locked?
    case ReadFails => c.phase.Locked?
    case WriteOne => c.phase.Draining? && c.phase.batch != []
    case Leave => !c.phase.Locked? && !c.phase.Finished? && !c.phase.Gone?
  }

  /** What a handler does next on its own, given the shared state it reads. */
  function HandlerApply(core: Core, c: Client, step: HandlerStep): Client
    requires HandlerEnabled(core, c, step)
  {
    match step
    case CheckMark =>
      var gap := GapInRange(core.mark, c.resume, c.watermark);
      if gap.Some? then Tell(c, gap.value.reason, gap.value.id) else c.(phase := Waiting)
    case Durable =>
      c.(phase := BatchTop(c.resume))
    case GiveUp =>
      c.(phase := GaveUp)
    case NotDurableExit =>
      Tell(c, NotDurable, if core.durableID + 1 <= c.resume then c.resume + 1 else core.durableID + 1)
    case Recheck =>
      var gap := GapInRange(core.mark, c.phase.after, c.watermark);
      if gap.Some? then Tell(c, gap.value.reason, gap.value.id) else c.(phase := Unmarked(c.phase.after))
    case LockAndMin =>
      if FirstId(core.log) > c.phase.after + 1 then Tell(c, Pruned, c.phase.after + 1)
      else c.(phase := Locked(c.phase.after))
    case ReadBatch =>
      var batch := ReplayRange(core.log, c.phase.after, c.watermark, REPLAY_BATCH);
      if batch == [] then
        if c.watermark > 0 && c.phase.after < c.watermark then Tell(c, Missing, c.phase.after + 1)
        else FinishReplay(c)
      else c.(phase := Draining(batch, c.phase.after + 1))
    case ReadFails =>
      c.(phase := Finished, ended := BySelf, notices := c.notices + [ReplayError])
    case WriteOne =>
      var r := c.phase.batch[0];
      if r.id != c.phase.expected then Tell(c, Hole, c.phase.expected)
      else
        var c' := c.(replayed := c.replayed + [r]);
        if |c.phase.batch| > 1 then c'.(phase := Draining(c.phase.batch[1..], r.id + 1))
        else if c.watermark > 0 && r.id >= c.watermark then FinishReplay(c')
        else c'.(phase := BatchTop(r.id))
    case Leave =>
      c.(phase := Finished, ended := BySelf)
  }

  // ------------------------------------------------------------ subscriptions

  /** publishEvent's fan-out: every registered channel is offered the record, and
      those without room are dropped from the set. */
  function FanOut(h: Hub, r: Rec): Hub
    requires h.subs <= h.chans.Keys
  {
    h.(chans := map k | k in h.chans :: if k in h.subs then Offer(h.chans[k], r) else h.chans[k],
       subs := set k | k in h.subs && HasRoom(h.chans[k]))
  }

  /** Server.Close's sweep over the registered channels. */
  function CloseAll(h: Hub): Hub
    requires h.subs <= h.chans.Keys
  {
    h.(chans := map k | k in h.chans :: if k in h.subs then Close(h.chans[k]) else h.chans[k], subs := {})
  }

  /** subscribeEvents, and handleStream's decision whether there is anything to replay. */
  function Register(h: Hub, k: nat, from: nat, watermark: nat): Hub {
    var resumes := from > 0 && from < watermark;
    Hub(h.subs + {k},
        h.chans[k := Channel([], false, false, false)],
        h.clients[k := Client(from, watermark, if resumes then PreCheck else Tailing, [], [], !resumes, [], Open)])
  }

  /** The handler takes the next buffered record, or finds its channel closed. */
  function TakeNext(h: Hub, k: nat): Hub
    requires k in h.clients && k in h.chans
  {
    var c, ch := h.clients[k], h.chans[k];
    if ch.buf != [] then
      h.(clients := h.clients[k := c.(tailed := c.tailed + [ch.buf[0]])],
         chans := h.chans[k := ch.(buf := ch.buf[1..])])
    else if ch.overflowed then
      h.(clients := h.clients[k := c.(phase := Finished, ended := ByChannel,
          notices := c.notices + [Resync(SlowConsumer, 0)])])
    else h.(clients := h.clients[k := c.(phase := Finished, ended := ByChannel)])
  }

  function Deregister(h: Hub, k: nat): Hub
    requires k in h.clients && k in h.chans
  {
    var h' := h.(clients := h.clients[k := h.clients[k].(phase := Gone)]);
    if k in h.subs then h'.(subs := h.subs - {k}, chans := h.chans[k := Close(h.chans[k])]) else h'
  }

  // ------------------------------------------------------------ runs

  datatype Step =
    | Serve(cs: CoreStep)
    | Publish
    | CloseChannels
    | Subscribe(k: nat, from: nat)
    | Handle(k: nat, hs: HandlerStep)
    | Receive(k: nat)
    | Unsubscribe(k: nat)

  predicate HasClient(h: Hub, k: nat) {
    k in h.clients && k in h.chans
  }

  /** No handler is between its MinID and its ReplayRange: replayMu can be locked. */
  predicate ReplayMuFree(h: Hub) {
    forall k :: k in h.clients ==> !h.clients[k].phase.Locked?
  }

  predicate Enabled(s: Server, step: Step) {
    match step
    case Serve(cs) => CoreEnabled(s.core, cs) && (cs.Prune? ==> ReplayMuFree(s.hub))
    case Publish => s.core.emit.Assigned? && s.hub.subs <= s.hub.chans.Keys
    case CloseChannels => s.core.closed && s.core.persist.PersistDone? && s.hub.subs <= s.hub.chans.Keys
    case Subscribe(k, _) => k !in s.hub.clients && k !in s.hub.chans && |s.hub.subs| < MAX_SUBSCRIBERS
    case Handle(k, hs) => HasClient(s.hub, k) && HandlerEnabled(s.core, s.hub.clients[k], hs)
    case Receive(k) => HasClient(s.hub, k) && s.hub.clients[k].phase.Tailing?
                       && (s.hub.chans[k].buf != [] || s.hub.chans[k].closed)
    case Unsubscribe(k) => HasClient(s.hub, k) && s.hub.clients[k].phase.Finished?
  }

  function Apply(s: Server, step: Step): Server
    requires Enabled(s, step)
  {
    match step
    case Serve(cs) => s.(core := CoreApply(s.core, cs))
    case Publish => Server(CorePublish(s.core), FanOut(s.hub, s.core.emit.rec))
    case CloseChannels => s.(hub := CloseAll(s.hub))
    case Subscribe(k, from) => s.(hub := Register(s.hub, k, from, s.core.lastPublishedID))
    case Handle(k, hs) =>
      s.(hub := s.hub.(clients := s.hub.clients[k := HandlerApply(s.core, s.hub.clients[k], hs)]))
    case Receive(k) => s.(hub := TakeNext(s.hub, k))
    case Unsubscribe(k) => s.(hub := Deregister(s.hub, k))
  }

  /** A run: each step enabled where it is taken. */
  predicate IsRun(s: Server, steps: seq<Step>)
    decreases |steps|
  {
    steps == [] || (Enabled(s, steps[0]) && IsRun(Apply(s, steps[0]), steps[1..]))
  }

  function Run(s: Server, steps: seq<Step>): Server
    requires IsRun(s, steps)
    decreases |steps|
  {
    if steps == [] then s else Run(Apply(s, steps[0]), steps[1..])
  }
}
