/** What a stream client can rely on, over every run of the broker. */
module BrokerTheorems {
  import opened Wrappers
  import opened Records
  import opened Broker
  import opened BrokerInvariants
  import BrokerDurability

  lemma Reached(log: seq<Rec>, steps: seq<Step>) returns (s: Server)
    requires StartupLog(log) && IsRun(Init(log), steps)
    ensures s == Run(Init(log), steps) && Inv(s)
  {
    InitInv(log);
    RunInv(Init(log), steps);
    s := Run(Init(log), steps);
  }

  lemma PrefixIncreasing(a: seq<Rec>, b: seq<Rec>)
    requires a <= b && Increasing(b)
    ensures Increasing(a) && forall r :: r in a ==> r in b
  {
  }

  lemma ClientGapless(h: seq<Rec>, stopped: bool, live: bool, ch: Channel, c: Client)
    requires Increasing(h) && ClientOk(h, stopped, live, ch, c)
    requires c.notices == [] && c.resume <= c.watermark
    ensures c.Handed() <= Above(h, c.From()) && Increasing(c.Handed())
    ensures c.phase.Tailing? && live ==> c.Handed() + ch.buf == Above(h, c.From())
    ensures c.ended.ByChannel? ==> c.Handed() == Above(h, c.From())
  {
    AboveSplits(h, c.From(), c.watermark);
    if c.caughtUp {
      assert c.Handed() + ch.buf == c.replayed + (c.tailed + ch.buf);
      assert c.tailed <= c.tailed + ch.buf;
    } else {
      assert c.Handed() == c.replayed;
    }
    AboveMembers(h, c.From());
    PrefixIncreasing(c.Handed(), Above(h, c.From()));
  }

  /** Gapless reconnect. A client that resumes from an id no newer than its watermark
      and has been sent no notice has been handed a prefix of the published records
      above that id, in publication order. While its channel is registered only the
      buffered records are outstanding, and if its handler ended because the channel
      was closed, it was handed all of them. */
  lemma GaplessReconnect(log: seq<Rec>, steps: seq<Step>, k: nat)
    requires StartupLog(log) && IsRun(Init(log), steps)
    requires k in Run(Init(log), steps).hub.clients
    requires var c := Run(Init(log), steps).hub.clients[k]; c.notices == [] && c.resume <= c.watermark
    ensures var s := Run(Init(log), steps);
            var c := s.hub.clients[k];
            && k in s.hub.chans
            && c.Handed() <= Above(s.core.history, c.From())
            && Increasing(c.Handed())
            && (c.phase.Tailing? && k in s.hub.subs ==>
                  c.Handed() + s.hub.chans[k].buf == Above(s.core.history, c.From()))
            && (c.ended.ByChannel? ==> c.Handed() == Above(s.core.history, c.From()))
  {
    var s := Reached(log, steps);
    ClientGapless(s.core.history, s.core.closed, k in s.hub.subs, s.hub.chans[k], s.hub.clients[k]);
  }

  /** The same, read off one record at a time: a client with no notice that is still
      registered and has drained its channel holds a record exactly when the record
      was published above its resume id. */
  lemma HandedIsPublished(log: seq<Rec>, steps: seq<Step>, k: nat, r: Rec)
    requires StartupLog(log) && IsRun(Init(log), steps)
    requires HasClient(Run(Init(log), steps).hub, k)
    requires var s := Run(Init(log), steps);
             var c := s.hub.clients[k];
             c.notices == [] && c.resume <= c.watermark && c.phase.Tailing? && k in s.hub.subs &&
                 s.hub.chans[k].buf == []
    ensures var s := Run(Init(log), steps);
            r in s.hub.clients[k].Handed() <==> r in s.core.history && s.hub.clients[k].From() < r.id
  {
    var s := Reached(log, steps);
    GaplessReconnect(log, steps, k);
    AboveMembers(s.core.history, s.hub.clients[k].From());
    assert s.hub.clients[k].Handed() + [] == s.hub.clients[k].Handed();
  }

  /** Whatever was told, a client's replay is a contiguous prefix of the records
      between its resume id and its watermark, and its tail a prefix of those above
      the watermark: a notice stands for the gap between the two. */
  lemma HandedInTwoRuns(log: seq<Rec>, steps: seq<Step>, k: nat)
    requires StartupLog(log) && IsRun(Init(log), steps)
    requires k in Run(Init(log), steps).hub.clients
    ensures var s := Run(Init(log), steps);
            var c := s.hub.clients[k];
            && c.replayed <= Between(s.core.history, c.From(), c.watermark)
            && c.tailed <= Above(s.core.history, c.watermark)
            && (c.tailed != [] && c.notices == [] ==> c.replayed == Between(s.core.history, c.From(), c.watermark))
  {
    var s := Reached(log, steps);
    var c := s.hub.clients[k];
    assert c.tailed <= c.tailed + s.hub.chans[k].buf;
  }

  /** Raising the bound changes nothing iff no record lies in between. */
  lemma NothingBelow(h: seq<Rec>, lo: nat, hi: nat)
    requires Increasing(h) && lo <= hi
    ensures Above(h, lo) == Above(h, hi) <==> forall r :: r in h && lo < r.id ==> hi < r.id
  {
    AboveMembers(h, lo);
    AboveMembers(h, hi);
    AboveSplits(h, lo, hi);
    BetweenMembers(h, lo, hi);
    if Above(h, lo) != Above(h, hi) {
      assert Between(h, lo, hi) != [];
      assert Between(h, lo, hi)[0] in Between(h, lo, hi);
    }
  }

  /** No channel is ever sent on or closed after it was closed, and none holds more
      than its buffer; a handler that finds its channel closed by an overflow says so. */
  lemma ChannelsNeverPanic(log: seq<Rec>, steps: seq<Step>, k: nat)
    requires StartupLog(log) && IsRun(Init(log), steps)
    requires k in Run(Init(log), steps).hub.chans
    ensures var s := Run(Init(log), steps);
            && !s.hub.chans[k].broken
            && |s.hub.chans[k].buf| <= SUBSCRIBER_BUFFER
            && (k in s.hub.subs <==> !s.hub.chans[k].closed)
            && k in s.hub.clients
            && (s.hub.chans[k].overflowed && s.hub.clients[k].ended.ByChannel? ==> s.hub.clients[k].notices != [])
  {
    var s := Reached(log, steps);
  }

  /** The gap-mark invariant: durableID <= lastPublishedID <= eventSeq, and every
      published record is in the log, on its way to it, pruned, or lost; a lost one is
      at or above the mark unless its marker is still at work, and the mark itself
      names a published record that was lost. What is in the log is at or below durableID,
      but for a record the persister has just written. */
  lemma GapMarkInvariant(log: seq<Rec>, steps: seq<Step>)
    requires StartupLog(log) && IsRun(Init(log), steps)
    ensures var c := Run(Init(log), steps).core;
            && c.durableID <= c.lastPublishedID <= c.eventSeq
            && (forall r :: r in c.log ==> r.id <= c.durableID || c.persist == Written(r))
            && (forall r :: r in c.history ==>
                  || r in c.log || r in Pending(c) || r.id in c.pruned
                  || AtOrAboveMark(c, r.id) || BeingMarked(c, r.id))
            && (c.mark.Some? ==> c.mark.value.id in Ids(c.history) && c.mark.value.id !in Ids(c.log)
                                 && c.mark.value.id !in Ids(Pending(c)))
  {
    BrokerDurability.LogIsDurable(log, steps);
    var s := Reached(log, steps);
  }

  // ------------------------------------------------------------ no needless resync

  /** Every id of the client's replay range is in the log. */
  ghost predicate Retained(core: Core, c: Client) {
    forall id :: c.resume < id <= c.watermark ==> id in Ids(core.log)
  }

  /** The range stays in the log at every state of the run, and no read fails. */
  ghost predicate RetainedAlong(s: Server, steps: seq<Step>, k: nat)
    requires IsRun(s, steps)
    decreases |steps|
  {
    && k in s.hub.clients && Retained(s.core, s.hub.clients[k])
    && (steps != [] ==>
          && steps[0] != Handle(k, ReadFails)
          && RetainedAlong(Apply(s, steps[0]), steps[1..], k))
  }

  /** The batch carries the ids from `from` on without a gap. */
  predicate Contiguous(batch: seq<Rec>, from: nat) {
    forall i :: 0 <= i < |batch| ==> batch[i].id == from + i
  }

  /** No gap notice so far, and nothing that could lead to one. */
  ghost predicate Clean(core: Core, c: Client) {
    && (forall n :: n in c.notices ==> n == Resync(SlowConsumer, 0))
    && (c.phase.PreCheck? || c.phase.Waiting? ==> core.durableID >= c.watermark)
    && !c.phase.GaveUp?
    && (c.phase.Draining? ==> Contiguous(c.phase.batch, c.phase.expected))
    && (c.phase.Tailing? ==> c.caughtUp)
  }

  lemma {:induction false} DenseIsContiguous(b: seq<Rec>, lo: nat, hi: nat)
    requires Increasing(b) && lo <= hi
    requires forall r :: r in b ==> lo < r.id <= hi
    requires forall id :: lo < id <= hi ==> id in Ids(b)
    ensures |b| == hi - lo && Contiguous(b, lo + 1)
    decreases hi
  {
    if lo == hi {
      assert forall r :: r !in b;
    } else {
      assert hi in Ids(b);
      var last := b[|b| - 1];
      var r :| r in b && r.id == hi;
      assert last in b;
      LastIsGreatest(b);
      var front := b[..|b| - 1];
      assert b == front + [last];
      forall id | lo < id <= hi - 1 ensures id in Ids(front) {
        assert id in Ids(b);
        var x :| x in b && x.id == id;
        assert x in front;
      }
      LastIncreasing(front, last);
      DenseIsContiguous(front, lo, hi - 1);
    }
  }

  /** Read where the whole range is in the log, a batch has no gap and is not empty. */
  lemma RetainedBatch(log: seq<Rec>, after: nat, until: nat)
    requires Increasing(log) && after < until
    requires forall id :: after < id <= until ==> id in Ids(log)
    ensures var b := ReplayRange(log, after, until, REPLAY_BATCH); b != [] && Contiguous(b, after + 1)
    ensures FirstId(log) <= after + 1
  {
    var run := Between(log, after, until);
    BetweenMembers(log, after, until);
    forall id | after < id <= until ensures id in Ids(run) {
      assert id in Ids(log);
      var x :| x in log && x.id == id;
      assert x in run;
    }
    DenseIsContiguous(run, after, until);
    assert after + 1 in Ids(log);
  }

  lemma UnmarkedRange(core: Core, after: nat, until: nat)
    requires CoreInv(core)
    requires forall id :: after < id <= until ==> id in Ids(core.log)
    ensures until > 0 ==> GapInRange(core.mark, after, until).None?
  {
    assert core.mark.Some? ==> core.mark.value.id !in Ids(core.log);
  }

  lemma HandlerKeepsClean(core: Core, live: bool, ch: Channel, c: Client, hs: HandlerStep)
    requires CoreInv(core) && ClientOk(core.history, core.closed, live, ch, c)
    requires HandlerEnabled(core, c, hs) && hs != ReadFails
    requires Clean(core, c) && Retained(core, c)
    ensures Clean(core, HandlerApply(core, c, hs))
  {
    match hs
    case CheckMark => UnmarkedRange(core, c.resume, c.watermark);
    case Recheck => UnmarkedRange(core, c.phase.after, c.watermark);
    case LockAndMin => RetainedBatch(core.log, c.phase.after, c.watermark);
    case ReadBatch => RetainedBatch(core.log, c.phase.after, c.watermark);
    case _ =>
  }

  lemma DurableOnlyGrows(c: Core, cs: CoreStep)
    requires Piped(c) && CoreEnabled(c, cs)
    ensures CoreApply(c, cs).durableID >= c.durableID
  {
  }

  lemma HubKeepsClean(hub: Hub, core: Core, step: Step, k: nat)
    requires HasClient(hub, k) && Clean(core, hub.clients[k])
    requires Enabled(Server(core, hub), step) &&
        (step.Receive? || step.Unsubscribe? || step.Subscribe? || step.CloseChannels?)
    ensures var hub' := Apply(Server(core, hub), step).hub; HasClient(hub', k) && Clean(core, hub'.clients[k])
  {
  }

  lemma StepKeepsClean(s: Server, step: Step, k: nat)
    requires Inv(s) && Enabled(s, step) && step != Handle(k, ReadFails)
    requires HasClient(s.hub, k) && Clean(s.core, s.hub.clients[k]) && Retained(s.core, s.hub.clients[k])
    ensures HasClient(Apply(s, step).hub, k) && Clean(Apply(s, step).core, Apply(s, step).hub.clients[k])
  {
    match step
    case Handle(j, hs) =>
      if j == k {
        HandlerKeepsClean(s.core, k in s.hub.subs, s.hub.chans[k], s.hub.clients[k], hs);
      }
    case Serve(cs) => DurableOnlyGrows(s.core, cs);
    case Publish =>
    case _ => HubKeepsClean(s.hub, s.core, step, k);
  }

  /** The converse: a replay that starts with its whole range durable, and whose range
      stays in the log (nothing pruned from it, nothing lost in it, no id burned), is
      never answered with a gap notice; once tailing, it has been caught up. */
  lemma {:induction false} NoNeedlessResync(s: Server, steps: seq<Step>, k: nat)
    requires Inv(s) && HasClient(s.hub, k) && IsRun(s, steps) && RetainedAlong(s, steps, k)
    requires Clean(s.core, s.hub.clients[k])
    ensures k in Run(s, steps).hub.clients && Clean(Run(s, steps).core, Run(s, steps).hub.clients[k])
    decreases |steps|
  {
    if steps != [] {
      StepInv(s, steps[0]);
      StepKeepsClean(s, steps[0], k);
      NoNeedlessResync(Apply(s, steps[0]), steps[1..], k);
    }
  }

  /** ... in particular from the moment a resuming client has subscribed, if the persister
      is not between a write and its account: the watermark is in the log, and what is in
      the log is durable. */
  lemma RetainedReplayIsServed(log: seq<Rec>, before: seq<Step>, k: nat, from: nat, after: seq<Step>)
    requires StartupLog(log) && IsRun(Init(log), before)
    requires Enabled(Run(Init(log), before), Subscribe(k, from))
    requires var s := Run(Init(log), before);
             var s1 := Apply(s, Subscribe(k, from));
             !s.core.persist.Written? && IsRun(s1, after) && RetainedAlong(s1, after, k)
    ensures var c := Run(Apply(Run(Init(log), before), Subscribe(k, from)), after).hub.clients;
            k in c && (forall n :: n in c[k].notices ==> n == Resync(SlowConsumer, 0))
            && (c[k].phase.Tailing? ==> c[k].caughtUp)
  {
    var s := Reached(log, before);
    var s1 := Apply(s, Subscribe(k, from));
    StepInv(s, Subscribe(k, from));
    GapMarkInvariant(log, before);
    var c := s1.hub.clients[k];
    if c.phase.PreCheck? {
      assert c.watermark in Ids(s.core.log);
    }
    NoNeedlessResync(s1, after, k);
  }
}
