/** Resuming from an id the broker has not published: what such a client is handed, and
    which states at its subscription leave its promise intact. */
module BrokerResume {
  import opened Records
  import opened Broker
  import opened BrokerInvariants
  import opened BrokerTheorems
  import opened BrokerProgress

  /** What the client's id promises: without a notice it has been handed a prefix of the
      published records above the id, all but the buffered ones while it is registered, and
      all of them if its channel was closed under it. */
  ghost predicate Kept(s: Server, k: nat) {
    && HasClient(s.hub, k)
    && var c, ch, owed := s.hub.clients[k], s.hub.chans[k], Above(s.core.history, s.hub.clients[k].From());
      c.notices == [] ==>
        && c.Handed() <= owed
        && (c.phase.Tailing? && k in s.hub.subs ==> c.Handed() + ch.buf == owed)
        && (c.ended.ByChannel? ==> c.Handed() == owed)
  }

  /** Whatever happens from `s` on, the promise is kept. */
  ghost predicate AlwaysKept(s: Server, k: nat) {
    forall steps :: IsRun(s, steps) ==> Kept(Run(s, steps), k)
  }

  /** A record with an id up to `from` can still be published: one is about to be, or the
      sequence has not passed `from`. */
  predicate StillComes(c: Core, from: nat) {
    !c.closed && (c.eventSeq < from || (c.emit.Assigned? && c.eventSeq <= from))
  }

  /** Every record published above `w` is above `from`, and so will be every later one. */
  ghost predicate Passed(c: Core, w: nat, from: nat) {
    (forall r :: r in c.history && w < r.id ==> from < r.id) && !StillComes(c, from)
  }

  lemma CoreStepKeepsPassed(c: Core, step: CoreStep, w: nat, from: nat)
    requires CoreEnabled(c, step) && Passed(c, w, from)
    ensures Passed(CoreApply(c, step), w, from)
  {
  }

  lemma PublishKeepsPassed(c: Core, w: nat, from: nat)
    requires Sequenced(c) && c.emit.Assigned? && Passed(c, w, from)
    ensures Passed(CorePublish(c), w, from)
  {
  }

  /** A client with this resume id and watermark, which no step changes. */
  predicate HasIds(h: Hub, k: nat, from: nat, w: nat) {
    HasClient(h, k) && h.clients[k].resume == from && h.clients[k].watermark == w
  }

  lemma StepKeepsIds(s: Server, step: Step, k: nat, from: nat, w: nat)
    requires Enabled(s, step) && HasIds(s.hub, k, from, w)
    ensures HasIds(Apply(s, step).hub, k, from, w)
  {
  }

  lemma {:induction false} RunKeepsIds(s: Server, steps: seq<Step>, k: nat, from: nat, w: nat)
    requires IsRun(s, steps) && HasIds(s.hub, k, from, w)
    ensures HasIds(Run(s, steps).hub, k, from, w)
    decreases |steps|
  {
    if steps != [] {
      StepKeepsIds(s, steps[0], k, from, w);
      RunKeepsIds(Apply(s, steps[0]), steps[1..], k, from, w);
    }
  }

  lemma {:induction false} RunKeepsPassed(s: Server, steps: seq<Step>, w: nat, from: nat)
    requires Inv(s) && IsRun(s, steps) && Passed(s.core, w, from)
    ensures Passed(Run(s, steps).core, w, from)
    decreases |steps|
  {
    if steps != [] {
      match steps[0] {
        case Serve(cs) => CoreStepKeepsPassed(s.core, cs, w, from);
        case Publish => PublishKeepsPassed(s.core, w, from);
        case _ =>
      }
      StepInv(s, steps[0]);
      RunKeepsPassed(Apply(s, steps[0]), steps[1..], w, from);
    }
  }

  /** A client that resumes above its watermark is handed the records above the watermark. */
  lemma KeptWhenPassed(h: seq<Rec>, stopped: bool, live: bool, ch: Channel, c: Client)
    requires Increasing(h) && ClientOk(h, stopped, live, ch, c) && c.notices == [] && c.resume > c.watermark
    requires forall r :: r in h && c.watermark < r.id ==> c.resume < r.id
    ensures c.Handed() <= Above(h, c.resume)
    ensures c.phase.Tailing? && live ==> c.Handed() + ch.buf == Above(h, c.resume)
    ensures c.ended.ByChannel? ==> c.Handed() == Above(h, c.resume)
  {
    NothingBelow(h, c.watermark, c.resume);
    BetweenEmpty(h, c.resume, c.watermark);
    assert c.replayed == [] && c.Handed() == c.tailed;
    assert c.tailed <= c.tailed + ch.buf;
  }

  lemma KeptWhenTrue(s: Server, k: nat, from: nat, w: nat)
    requires Inv(s) && HasIds(s.hub, k, from, w)
    requires from <= w || forall r :: r in s.core.history && w < r.id ==> from < r.id
    ensures Kept(s, k)
  {
    var c := s.hub.clients[k];
    if c.notices == [] {
      if from <= w {
        ClientGapless(s.core.history, s.core.closed, k in s.hub.subs, s.hub.chans[k], c);
      } else {
        KeptWhenPassed(s.core.history, s.core.closed, k in s.hub.subs, s.hub.chans[k], c);
      }
    }
  }

  /** A client that has just begun to tail from an id above everything published. */
  ghost predicate Ahead(s: Server, k: nat) {
    && HasClient(s.hub, k) && k in s.hub.subs && s.hub.chans[k] == Channel([], false, false, false)
    && var c := s.hub.clients[k];
      && c.phase == Tailing && c.replayed == c.tailed == [] && c.notices == []
      && s.core.lastPublishedID < c.resume && StillComes(s.core, c.resume)
  }

  lemma NoPrefixWithout(r: Rec, rs: seq<Rec>)
    requires r !in rs
    ensures !([r] <= rs)
  {
    if rs != [] {
      assert rs[0] in rs && [r][0] == r;
    }
  }

  /** The client receives the record about to be published. */
  lemma PublishIsReceived(s: Server, k: nat)
    requires Ahead(s, k) && s.core.emit.Assigned? && Enabled(s, Publish)
    ensures var steps := [Publish] + ([Receive(k)] + []);
      && IsRun(s, steps) && HasClient(Run(s, steps).hub, k)
      && Run(s, steps).core.history == s.core.history + [s.core.emit.rec]
      && var c := Run(s, steps).hub.clients[k];
        c.Handed() == [s.core.emit.rec] && c.notices == [] && c.resume == s.hub.clients[k].resume
  {
    var r, t := s.core.emit.rec, Apply(s, Publish);
    assert t.hub.chans[k].buf == [] + [r] == [r];
    assert [] + [r] == [r] && [r][1..] == [];
    var u := Apply(t, Receive(k));
    assert u.hub.clients[k].tailed == [] + [r] && u.hub.clients[k].replayed == [];
    RunOne(t, Receive(k), []);
    RunOne(s, Publish, [Receive(k)] + []);
  }

  /** It is one that the client's id says it has. */
  lemma PublishBreaks(s: Server, k: nat)
    requires Sequenced(s.core) && Ahead(s, k) && s.core.emit.Assigned? && Enabled(s, Publish)
    ensures var steps := [Publish] + ([Receive(k)] + []); IsRun(s, steps) && !Kept(Run(s, steps), k)
  {
    var steps := [Publish] + ([Receive(k)] + []);
    PublishIsReceived(s, k);
    SnocIncreasing(s.core.history, s.core.emit.rec);
    var t := Run(s, steps);
    AboveMembers(t.core.history, t.hub.clients[k].resume);
    var c := t.hub.clients[k];
    assert s.core.emit.rec.id <= c.resume == c.From();
    NoPrefixWithout(s.core.emit.rec, Above(t.core.history, c.From()));
    assert !(c.Handed() <= Above(t.core.history, c.From()));
  }

  lemma EmitAdvances(c: Core, step: CoreStep, from: nat)
    requires CoreInv(c) && StillComes(c, from) && !c.emit.Assigned? && CoreEnabled(c, step)
    requires step.EmitAssign? || (!c.emit.EmitIdle? && step == EmitNext(c))
    ensures var d := CoreApply(c, step);
      && StillComes(d, from) && d.lastPublishedID == c.lastPublishedID
      && (d.emit.Assigned? || ToIdle(d) < ToIdle(c))
  {
  }

  /** Such a client can be handed a record its id says it has: Emit gets to publish one. */
  lemma {:induction false} CanBreak(s: Server, k: nat, ev: LiveEvent) returns (steps: seq<Step>)
    requires Inv(s) && Ahead(s, k)
    ensures IsRun(s, steps) && !Kept(Run(s, steps), k)
    decreases if s.core.emit.Assigned? then 0 else 1, ToIdle(s.core)
  {
    if s.core.emit.Assigned? {
      PublishBreaks(s, k);
      steps := [Publish] + ([Receive(k)] + []);
    } else {
      var step := if s.core.emit.EmitIdle? then EmitAssign(ev) else EmitNext(s.core);
      EmitAdvances(s.core, step, s.hub.clients[k].resume);
      StepInv(s, Serve(step));
      var rest := CanBreak(Apply(s, Serve(step)), k, ev);
      steps := [Serve(step)] + rest;
      RunOne(s, Serve(step), rest);
    }
  }

  /** The exact condition, as it stands when the client subscribes: its promise is kept
      whatever happens next iff its id is no newer than the watermark, or no record up to
      its id can be published any more. */
  lemma ResumeAboveWatermark(log: seq<Rec>, before: seq<Step>, k: nat, from: nat)
    requires StartupLog(log) && IsRun(Init(log), before)
    requires Enabled(Run(Init(log), before), Subscribe(k, from))
    ensures var s := Run(Init(log), before);
      AlwaysKept(Apply(s, Subscribe(k, from)), k) <==>
      from <= s.core.lastPublishedID || !StillComes(s.core, from)
  {
    var s := Reached(log, before);
    var t, w := Apply(s, Subscribe(k, from)), s.core.lastPublishedID;
    StepInv(s, Subscribe(k, from));
    if from <= w || !StillComes(s.core, from) {
      LastIsGreatest(s.core.history);
      forall steps | IsRun(t, steps) ensures Kept(Run(t, steps), k) {
        RunInv(t, steps);
        RunKeepsIds(t, steps, k, from, w);
        if from > w {
          RunKeepsPassed(t, steps, w, from);
        }
        KeptWhenTrue(Run(t, steps), k, from, w);
      }
    } else {
      var ev := LiveEvent("", 0, "", "", "", "", "", "", "");
      var steps := CanBreak(t, k, ev);
      assert IsRun(t, steps) && !Kept(Run(t, steps), k);
    }
  }

  /** Such a run: on an empty log a client that resumes from 5 is handed record 1. */
  lemma AnUnknownIdIsServed(ev: LiveEvent) returns (steps: seq<Step>)
    ensures steps == [Subscribe(0, 5), Serve(EmitAssign(ev)), Publish, Receive(0)]
    ensures IsRun(Init([]), steps) && 0 in Run(Init([]), steps).hub.clients
    ensures var c := Run(Init([]), steps).hub.clients[0];
      c.resume == 5 && c.notices == [] && c.Handed() == [Rec(1, ev)]
  {
    var s := Init([]);
    var s1 := Apply(s, Subscribe(0, 5));
    var s2 := Apply(s1, Serve(EmitAssign(ev)));
    PublishIsReceived(s2, 0);
    var rest := [Publish] + ([Receive(0)] + []);
    RunOne(s1, Serve(EmitAssign(ev)), rest);
    RunOne(s, Subscribe(0, 5), [Serve(EmitAssign(ev))] + rest);
    steps := [Subscribe(0, 5)] + ([Serve(EmitAssign(ev))] + rest);
    assert steps == [Subscribe(0, 5), Serve(EmitAssign(ev)), Publish, Receive(0)];
  }
}
