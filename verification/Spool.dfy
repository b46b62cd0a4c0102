/** The hook spool's byte budget under concurrent enqueuers and one writer
    (httpapi/hook.go:24-75, httpapi/server.go:266-274), as a step system. A step is one
    atomic operation: a load, a compare-and-swap, a channel operation, a counter update. */
module Spool {
  const SPOOL_BUFFER := 256
  const SPOOL_BUDGET_BYTES := 0x800_0000

  /** Where an enqueueSpool call, or the body it has handed over, is. */
  datatype Stage =
    | Loading
    | Swapping(seen: int)
    | Reserved
    | Refused
    | Dropping
    | Counting
    | Dropped
    | Queued
    | Writing
    | Flushed
    | Spooled

  /** One call made while the server was open. */
  datatype Call = Call(len: nat, stage: Stage)

  datatype Writer = Waiting | Has(body: nat) | Releasing(body: nat) | Exited

  /** `queued` is queuedSpoolBytes, `ch` spoolCh (bodies by their call), `attempts` the
      bodies given to appendSpoolLine, `total` and `bytes` the drop counters. */
  datatype State = State(
    calls: seq<Call>,
    queued: int,
    ch: seq<nat>,
    attempts: seq<nat>,
    writer: Writer,
    closed: bool,
    total: nat,
    bytes: nat)

  datatype Event =
    | Enter(len: nat)
    | Load(i: nat)
    | CompareAndSwap(i: nat)
    | Send(i: nat)
    | Release(i: nat)
    | CountDrop(i: nat)
    | CountBytes(i: nat)
    | Receive
    | Append
    | ReleaseWritten
    | Close
    | Exit

  function Init(): State {
    State([], 0, [], [], Waiting, false, 0, 0)
  }

  /** Still inside enqueueSpool, holding the read lock. */
  predicate Active(stage: Stage) {
    stage.Loading? || stage.Swapping? || stage.Reserved? || stage.Refused? || stage.Dropping? || stage.Counting?
  }

  predicate At(s: State, i: nat, stage: Stage) {
    i < |s.calls| && s.calls[i].stage == stage
  }

  predicate Enabled(s: State, e: Event) {
    match e
    case Enter(_) => !s.closed
    case Load(i) => At(s, i, Loading)
    case CompareAndSwap(i) => i < |s.calls| && s.calls[i].stage.Swapping?
    case Send(i) => At(s, i, Reserved)
    case Release(i) => At(s, i, Refused)
    case CountDrop(i) => At(s, i, Dropping)
    case CountBytes(i) => At(s, i, Counting)
    case Receive => s.writer.Waiting? && s.ch != [] && s.ch[0] < |s.calls|
    case Append => s.writer.Has? && s.writer.body < |s.calls|
    case ReleaseWritten => s.writer.Releasing? && s.writer.body < |s.calls|
    case Close => !s.closed && forall i :: 0 <= i < |s.calls| ==> !Active(s.calls[i].stage)
    case Exit => s.writer.Waiting? && s.ch == [] && s.closed
  }

  function To(s: State, i: nat, stage: Stage): State
    requires i < |s.calls|
  {
    s.(calls := s.calls[i := s.calls[i].(stage := stage)])
  }

  function Apply(s: State, e: Event): State
    requires Enabled(s, e)
  {
    match e
    case Enter(len) => s.(calls := s.calls + [Call(len, Loading)])
    case Load(i) => To(s, i, if s.queued + s.calls[i].len > SPOOL_BUDGET_BYTES then Dropping else Swapping(s.queued))
    case CompareAndSwap(i) =>
      if s.queued == s.calls[i].stage.seen then To(s, i, Reserved).(queued := s.queued + s.calls[i].len)
          else To(s, i, Loading)
    case Send(i) =>
      if |s.ch| < SPOOL_BUFFER then To(s, i, Queued).(ch := s.ch + [i]) else To(s, i, Refused)
    case Release(i) => To(s, i, Dropping).(queued := s.queued - s.calls[i].len)
    case CountDrop(i) => To(s, i, Counting).(total := s.total + 1)
    case CountBytes(i) => To(s, i, Dropped).(bytes := s.bytes + s.calls[i].len)
    case Receive => To(s, s.ch[0], Writing).(ch := s.ch[1..], writer := Has(s.ch[0]))
    case Append => To(s, s.writer.body, Flushed).(attempts := s.attempts + [s.writer.body],
        writer := Releasing(s.writer.body))
    case ReleaseWritten => To(s, s.writer.body, Spooled).(queued := s.queued - s.calls[s.writer.body].len,
        writer := Waiting)
    case Close => s.(closed := true)
    case Exit => s.(writer := Exited)
  }

  /** The bytes a call has reserved and not given back: not yet sent, queued, or being
      written. */
  function Held(c: Call): int {
    if c.stage.Reserved? || c.stage.Refused? || c.stage.Queued? || c.stage.Writing? ||
        c.stage.Flushed? then c.len else 0
  }

  function CountedDrop(c: Call): int {
    if c.stage.Counting? || c.stage.Dropped? then 1 else 0
  }

  function CountedBytes(c: Call): int {
    if c.stage.Dropped? then c.len else 0
  }

  function Sum(calls: seq<Call>, n: nat, w: Call -> int): int
    requires n <= |calls|
  {
    if n == 0 then 0 else Sum(calls, n - 1, w) + w(calls[n - 1])
  }

  lemma {:induction false} SumSame(calls: seq<Call>, others: seq<Call>, n: nat, w: Call -> int)
    requires n <= |calls| && n <= |others| && forall i :: 0 <= i < n ==> calls[i] == others[i]
    ensures Sum(calls, n, w) == Sum(others, n, w)
  {
    if n > 0 {
      SumSame(calls, others, n - 1, w);
    }
  }

  lemma {:induction false} SumUpdate(calls: seq<Call>, i: nat, c: Call, n: nat, w: Call -> int)
    requires i < n <= |calls|
    ensures Sum(calls[i := c], n, w) == Sum(calls, n, w) - w(calls[i]) + w(c)
  {
    if i == n - 1 {
      SumSame(calls, calls[i := c], i, w);
    } else {
      SumUpdate(calls, i, c, n - 1, w);
    }
  }

  lemma {:induction false} SumBound(calls: seq<Call>, n: nat, i: nat)
    requires i < n <= |calls|
    ensures Sum(calls, n, Held) >= Held(calls[i]) && Sum(calls, n, Held) >= 0
  {
    if i < n - 1 {
      SumBound(calls, n - 1, i);
    } else if n > 1 {
      SumBound(calls, n - 1, 0);
    }
  }

  ghost predicate Totals(s: State) {
    && s.queued == Sum(s.calls, |s.calls|, Held)
    && s.total == Sum(s.calls, |s.calls|, CountedDrop)
    && s.bytes == Sum(s.calls, |s.calls|, CountedBytes)
  }

  /** The budget: what is reserved fits, and so will what a swap may still reserve. */
  predicate Budgeted(s: State) {
    && 0 <= s.queued <= SPOOL_BUDGET_BYTES
    && forall i :: 0 <= i < |s.calls| && s.calls[i].stage.Swapping? ==>
        s.calls[i].stage.seen + s.calls[i].len <= SPOOL_BUDGET_BYTES
  }

  predicate Distinct(xs: seq<nat>) {
    forall i, j :: 0 <= i < j < |xs| ==> xs[i] != xs[j]
  }

  /** A body is in the channel, with the writer or written exactly when its call says so,
      and only once. */
  predicate Placed(s: State) {
    && Distinct(s.ch) && |s.ch| <= SPOOL_BUFFER && Distinct(s.attempts)
    && (forall i :: i in s.ch ==> i < |s.calls|)
    && (forall i :: i in s.attempts ==> i < |s.calls|)
    && (forall i :: 0 <= i < |s.calls| ==> (i in s.ch <==> s.calls[i].stage.Queued?))
    && (forall i :: 0 <= i < |s.calls| ==>
        (i in s.attempts <==> s.calls[i].stage.Flushed? || s.calls[i].stage.Spooled?))
    && (forall i :: 0 <= i < |s.calls| ==> (s.writer == Has(i) <==> s.calls[i].stage.Writing?))
    && (forall i :: 0 <= i < |s.calls| ==> (s.writer == Releasing(i) <==> s.calls[i].stage.Flushed?))
    && (s.writer.Has? ==> s.writer.body < |s.calls|)
    && (s.writer.Releasing? ==> s.writer.body < |s.calls|)
    && (s.closed ==> forall i :: 0 <= i < |s.calls| ==> !Active(s.calls[i].stage))
    && (s.writer.Exited? ==> s.closed && s.ch == [])
  }

  ghost predicate Inv(s: State) {
    Totals(s) && Budgeted(s) && Placed(s)
  }

  /** Moving one call along moves the totals by what its stage holds and counts. */
  lemma MoveTotals(s: State, i: nat, c: Call, t: State)
    requires Totals(s) && i < |s.calls| && t.calls == s.calls[i := c]
    requires t.queued == s.queued - Held(s.calls[i]) + Held(c)
    requires t.total == s.total - CountedDrop(s.calls[i]) + CountedDrop(c)
    requires t.bytes == s.bytes - CountedBytes(s.calls[i]) + CountedBytes(c)
    ensures Totals(t)
  {
    SumUpdate(s.calls, i, c, |s.calls|, Held);
    SumUpdate(s.calls, i, c, |s.calls|, CountedDrop);
    SumUpdate(s.calls, i, c, |s.calls|, CountedBytes);
  }

  lemma EnterTotals(s: State, len: nat)
    requires Totals(s) && Enabled(s, Enter(len))
    ensures Totals(Apply(s, Enter(len)))
  {
    var t := Apply(s, Enter(len));
    SumSame(s.calls, t.calls, |s.calls|, Held);
    SumSame(s.calls, t.calls, |s.calls|, CountedDrop);
    SumSame(s.calls, t.calls, |s.calls|, CountedBytes);
  }

  /** The call a step moves. */
  function Moved(s: State, e: Event): nat
    requires Enabled(s, e) && !e.Enter? && !e.Close? && !e.Exit?
  {
    match e
    case Load(i) => i
    case CompareAndSwap(i) => i
    case Send(i) => i
    case Release(i) => i
    case CountDrop(i) => i
    case CountBytes(i) => i
    case Receive => s.ch[0]
    case Append => s.writer.body
    case ReleaseWritten => s.writer.body
  }

  lemma TotalsStep(s: State, e: Event)
    requires Totals(s) && Placed(s) && Enabled(s, e)
    ensures Totals(Apply(s, e))
  {
    var t := Apply(s, e);
    if e.Enter? {
      EnterTotals(s, e.len);
    } else if !e.Close? && !e.Exit? {
      if e.Receive? {
        assert s.ch[0] in s.ch;
      }
      var i := Moved(s, e);
      MoveTotals(s, i, t.calls[i], t);
    }
  }

  /** Inside enqueueSpool, or out of it by a drop, a call is in none of the writer's hands. */
  predicate Apart(stage: Stage) {
    Active(stage) || stage.Dropped?
  }

  lemma ApartStep(s: State, e: Event)
    requires Placed(s) && Enabled(s, e) && (e.Load? || e.CompareAndSwap? || e.Release? || e.CountDrop? || e.CountBytes?)
    ensures Placed(Apply(s, e))
  {
    var t := Apply(s, e);
    assert t.ch == s.ch && t.attempts == s.attempts && t.writer == s.writer && t.closed == s.closed;
    assert forall j :: 0 <= j < |s.calls| && j != e.i ==> t.calls[j] == s.calls[j];
    assert Apart(s.calls[e.i].stage) && Apart(t.calls[e.i].stage);
  }

  lemma SendStep(s: State, i: nat)
    requires Placed(s) && Enabled(s, Send(i))
    ensures Placed(Apply(s, Send(i)))
  {
  }

  lemma ReceiveStep(s: State)
    requires Placed(s) && Enabled(s, Receive)
    ensures Placed(Apply(s, Receive))
  {
    var t := Apply(s, Receive);
    assert s.ch == [s.ch[0]] + t.ch;
    assert s.ch[0] !in t.ch;
    assert forall j :: j in s.ch <==> j == s.ch[0] || j in t.ch;
    assert forall j :: 0 <= j < |s.calls| && j != s.ch[0] ==> t.calls[j] == s.calls[j];
  }

  lemma WriterStep(s: State, e: Event)
    requires Placed(s) && Enabled(s, e) && (e.Append? || e.ReleaseWritten?)
    ensures Placed(Apply(s, e))
  {
  }

  lemma PlacedStep(s: State, e: Event)
    requires Placed(s) && Enabled(s, e)
    ensures Placed(Apply(s, e))
  {
    match e
    case Enter(len) =>
      var t := Apply(s, e);
      assert forall j :: 0 <= j < |s.calls| ==> t.calls[j] == s.calls[j];
    case Send(i) => SendStep(s, i);
    case Receive => ReceiveStep(s);
    case Append => WriterStep(s, e);
    case ReleaseWritten => WriterStep(s, e);
    case Close =>
    case Exit =>
    case _ => ApartStep(s, e);
  }

  lemma StepInv(s: State, e: Event)
    requires Inv(s) && Enabled(s, e)
    ensures Inv(Apply(s, e))
  {
    PlacedStep(s, e);
    if e.Receive? {
      assert s.ch[0] in s.ch;
    }
    TotalsStep(s, e);
    var t := Apply(s, e);
    if e.Release? {
      SumBound(s.calls, |s.calls|, e.i);
    }
    if e.ReleaseWritten? {
      SumBound(s.calls, |s.calls|, s.writer.body);
    }
  }

  predicate IsRun(s: State, es: seq<Event>)
    decreases |es|
  {
    es == [] || (Enabled(s, es[0]) && IsRun(Apply(s, es[0]), es[1..]))
  }

  function Run(s: State, es: seq<Event>): State
    requires IsRun(s, es)
    decreases |es|
  {
    if es == [] then s else Run(Apply(s, es[0]), es[1..])
  }

  lemma {:induction false} RunInv(s: State, es: seq<Event>)
    requires Inv(s) && IsRun(s, es)
    ensures Inv(Run(s, es))
    decreases |es|
  {
    if es != [] {
      StepInv(s, es[0]);
      RunInv(Apply(s, es[0]), es[1..]);
    }
  }

  /** In every interleaving of any number of calls with the writer and a close: the counter
      is exactly the bytes reserved but not sent, queued, or being written; it stays within
      the budget; a body is in one place at a time and given to the spool file at most
      once; and the drop counters count each dropped body once. */
  lemma SpoolAccounts(es: seq<Event>)
    requires IsRun(Init(), es)
    ensures var s := Run(Init(), es);
      && s.queued == Sum(s.calls, |s.calls|, Held) && 0 <= s.queued <= SPOOL_BUDGET_BYTES
      && s.total == Sum(s.calls, |s.calls|, CountedDrop) && s.bytes == Sum(s.calls, |s.calls|, CountedBytes)
      && Placed(s)
  {
    RunInv(Init(), es);
  }

  // ------------------------------------------------------------ what it takes to drop one

  /** On its way to a drop, or dropped. */
  predicate Failing(stage: Stage) {
    stage.Refused? || stage.Dropping? || stage.Counting? || stage.Dropped?
  }

  predicate NoneFailing(s: State) {
    forall i :: 0 <= i < |s.calls| ==> !Failing(s.calls[i].stage)
  }

  function Len(c: Call): int {
    c.len
  }

  /** All bodies offered together fit the budget and the slots. */
  predicate Fits(s: State) {
    Sum(s.calls, |s.calls|, Len) <= SPOOL_BUDGET_BYTES && |s.calls| <= SPOOL_BUFFER
  }

  lemma {:induction false} HeldIsWithin(calls: seq<Call>, n: nat)
    requires n <= |calls|
    ensures Sum(calls, n, Held) <= Sum(calls, n, Len)
  {
    if n > 0 {
      HeldIsWithin(calls, n - 1);
    }
  }

  /** A call that holds nothing leaves room for its bytes. */
  lemma {:induction false} RoomForOne(calls: seq<Call>, n: nat, i: nat)
    requires i < n <= |calls| && Held(calls[i]) == 0
    ensures Sum(calls, n, Held) + calls[i].len <= Sum(calls, n, Len)
  {
    if i == n - 1 {
      HeldIsWithin(calls, i);
    } else {
      RoomForOne(calls, n - 1, i);
    }
  }

  lemma {:induction false} DistinctFit(xs: seq<nat>, room: set<nat>)
    requires Distinct(xs) && forall x :: x in xs ==> x in room
    ensures |xs| <= |room|
  {
    if xs != [] {
      var front, last := xs[..|xs| - 1], xs[|xs| - 1];
      forall x | x in front ensures x in room - {last} {
        var i :| 0 <= i < |front| && front[i] == x;
        assert xs[i] != xs[|xs| - 1];
      }
      DistinctFit(front, room - {last});
    }
  }

  function Indices(n: nat): (r: set<nat>)
    ensures |r| == n && forall i: nat :: i in r <==> i < n
  {
    if n == 0 then {} else Indices(n - 1) + {n - 1}
  }

  lemma SlotForOne(s: State, i: nat)
    requires Placed(s) && i < |s.calls| && i !in s.ch
    ensures |s.ch| < |s.calls|
  {
    DistinctFit(s.ch, Indices(|s.calls|) - {i});
  }

  lemma StepFailsNone(s: State, e: Event)
    requires Inv(s) && Enabled(s, e) && NoneFailing(s) && (!e.Enter? ==> Fits(s))
    ensures NoneFailing(Apply(s, e))
  {
    if e.Load? {
      RoomForOne(s.calls, |s.calls|, e.i);
    }
    if e.Send? {
      SlotForOne(s, e.i);
    }
    if e.Receive? {
      assert s.ch[0] in s.ch;
    }
  }

  lemma StepFits(s: State, e: Event)
    requires Placed(s) && Enabled(s, e) && Fits(Apply(s, e))
    ensures Fits(s)
  {
    var t := Apply(s, e);
    if e.Enter? {
      SumSame(s.calls, t.calls, |s.calls|, Len);
    } else if !e.Close? && !e.Exit? {
      if e.Receive? {
        assert s.ch[0] in s.ch;
      }
      SumUpdate(s.calls, Moved(s, e), t.calls[Moved(s, e)], |s.calls|, Len);
    }
  }

  lemma {:induction false} RunFits(s: State, es: seq<Event>)
    requires Inv(s) && IsRun(s, es) && Fits(Run(s, es))
    ensures Fits(s)
    decreases |es|
  {
    if es != [] {
      StepInv(s, es[0]);
      RunFits(Apply(s, es[0]), es[1..]);
      StepFits(s, es[0]);
    }
  }

  lemma {:induction false} RunFailsNone(s: State, es: seq<Event>)
    requires Inv(s) && IsRun(s, es) && NoneFailing(s) && Fits(Run(s, es))
    ensures NoneFailing(Run(s, es))
    decreases |es|
  {
    if es != [] {
      RunFits(s, es);
      StepInv(s, es[0]);
      StepFailsNone(s, es[0]);
      RunFailsNone(Apply(s, es[0]), es[1..]);
    }
  }

  /** Bodies that together fit the budget and the slots are never dropped, however the calls,
      the writer and the close interleave. */
  lemma WhatFitsIsKept(es: seq<Event>)
    requires IsRun(Init(), es) && Fits(Run(Init(), es))
    ensures NoneFailing(Run(Init(), es)) && Run(Init(), es).total == 0
  {
    RunFailsNone(Init(), es);
    RunInv(Init(), es);
    var s := Run(Init(), es);
    NoneCounted(s.calls, |s.calls|);
  }

  lemma {:induction false} NoneCounted(calls: seq<Call>, n: nat)
    requires n <= |calls| && forall i :: 0 <= i < |calls| ==> !Failing(calls[i].stage)
    ensures Sum(calls, n, CountedDrop) == 0
  {
    if n > 0 {
      NoneCounted(calls, n - 1);
    }
  }

  /** A call is over when its body has been written or dropped. */
  predicate Over(c: Call) {
    c.stage.Spooled? || c.stage.Dropped?
  }

  predicate Settled(s: State) {
    forall i :: 0 <= i < |s.calls| ==> Over(s.calls[i])
  }

  /** Steps that neither bring a new call nor shut down. */
  predicate Working(e: Event) {
    !e.Enter? && !e.Close? && !e.Exit?
  }

  /** Until every body is written or dropped, some step is possible. */
  lemma NeverStuck(s: State)
    requires Inv(s) && !Settled(s)
    ensures exists e :: Working(e) && Enabled(s, e)
  {
    var i: nat :| i < |s.calls| && !Over(s.calls[i]);
    match s.calls[i].stage
    case Loading => assert Working(Load(i)) && Enabled(s, Load(i));
    case Swapping(_) => assert Working(CompareAndSwap(i)) && Enabled(s, CompareAndSwap(i));
    case Reserved => assert Working(Send(i)) && Enabled(s, Send(i));
    case Refused => assert Working(Release(i)) && Enabled(s, Release(i));
    case Dropping => assert Working(CountDrop(i)) && Enabled(s, CountDrop(i));
    case Counting => assert Working(CountBytes(i)) && Enabled(s, CountBytes(i));
    case Queued =>
      assert i in s.ch && s.ch[0] in s.ch;
      assert !s.writer.Exited?;
      if s.writer.Waiting? {
        assert Working(Receive) && Enabled(s, Receive);
      } else if s.writer.Has? {
        assert Working(Append) && Enabled(s, Append);
      } else {
        assert Working(ReleaseWritten) && Enabled(s, ReleaseWritten);
      }
    case Writing => assert Working(Append) && Enabled(s, Append);
    case Flushed => assert Working(ReleaseWritten) && Enabled(s, ReleaseWritten);
  }

  /** How often a call may still change the counter. */
  function ChangesLeft(c: Call): int {
    if c.stage.Loading? || c.stage.Swapping? then 2 else if Held(c.(len := 1)) == 1 then 1 else 0
  }

  /** A bound on the steps a call still has, given how often the counter may still change:
      a swap fails only after a change. */
  function StepsLeft(c: Call, changes: int, queued: int): int {
    match c.stage
    case Loading => 3 * changes + 13
    case Swapping(seen) => 3 * changes + if seen == queued then 12 else 14
    case Reserved => 9
    case Queued => 6
    case Refused => 5
    case Writing => 5
    case Dropping => 4
    case Flushed => 4
    case Counting => 3
    case Dropped => 0
    case Spooled => 0
  }

  function TotalSteps(calls: seq<Call>, n: nat, changes: int, queued: int): int
    requires n <= |calls|
  {
    if n == 0 then 0 else TotalSteps(calls, n - 1, changes, queued) + StepsLeft(calls[n - 1], changes, queued)
  }

  function Changes(s: State): int {
    Sum(s.calls, |s.calls|, ChangesLeft)
  }

  function Measure(s: State): int {
    TotalSteps(s.calls, |s.calls|, Changes(s), s.queued)
  }

  lemma {:induction false} ChangesAreNatural(calls: seq<Call>, n: nat)
    requires n <= |calls|
    ensures Sum(calls, n, ChangesLeft) >= 0
  {
    if n > 0 {
      ChangesAreNatural(calls, n - 1);
    }
  }

  lemma {:induction false} MeasureIsNatural(calls: seq<Call>, n: nat, changes: int, queued: int)
    requires n <= |calls| && changes >= 0
    ensures TotalSteps(calls, n, changes, queued) >= 0
  {
    if n > 0 {
      MeasureIsNatural(calls, n - 1, changes, queued);
    }
  }

  /** The other calls have no more steps left than before. */
  lemma {:induction false} OthersGainNothing(calls: seq<Call>, after: seq<Call>, n: nat, i: nat, changes: int,
      queued: int, changesAfter: int, queuedAfter: int)
    requires n <= |calls| == |after| && i < |calls| && after == calls[i := after[i]]
    requires changesAfter <= changes && (queuedAfter != queued ==> changesAfter < changes)
    ensures TotalSteps(after, n, changesAfter, queuedAfter)
         <= TotalSteps(calls, n, changes, queued) +
             if i < n then StepsLeft(after[i], changesAfter, queuedAfter) - StepsLeft(calls[i], changes, queued) else 0
  {
    if n > 0 {
      OthersGainNothing(calls, after, n - 1, i, changes, queued, changesAfter, queuedAfter);
    }
  }

  lemma ChangesFall(s: State, e: Event)
    requires Placed(s) && Working(e) && Enabled(s, e)
    ensures Moved(s, e) < |s.calls| && Apply(s, e).calls == s.calls[Moved(s, e) := Apply(s, e).calls[Moved(s, e)]]
    ensures 0 <= Changes(Apply(s, e)) <= Changes(s)
    ensures Apply(s, e).queued != s.queued ==> Changes(Apply(s, e)) < Changes(s)
  {
    if e.Receive? {
      assert s.ch[0] in s.ch;
    }
    var t, i := Apply(s, e), Moved(s, e);
    SumUpdate(s.calls, i, t.calls[i], |s.calls|, ChangesLeft);
    ChangesAreNatural(t.calls, |t.calls|);
  }

  /** Every working step uses one up: a compare-and-swap fails only if another call has
      changed the counter since the load, which cannot happen for ever. */
  lemma WorkRunsOut(s: State, e: Event)
    requires Inv(s) && Working(e) && Enabled(s, e)
    ensures 0 <= Measure(Apply(s, e)) < Measure(s)
  {
    var t, i := Apply(s, e), Moved(s, e);
    ChangesFall(s, e);
    assert StepsLeft(t.calls[i], Changes(t), t.queued) < StepsLeft(s.calls[i], Changes(s), s.queued);
    MeasureIsNatural(t.calls, |t.calls|, Changes(t), t.queued);
    OthersGainNothing(s.calls, t.calls, |s.calls|, i, Changes(s), s.queued, Changes(t), t.queued);
  }

  /** Without new calls every run is finite, however the swaps interleave. */
  lemma {:induction false} RunsAreFinite(s: State, es: seq<Event>)
    requires Inv(s) && IsRun(s, es) && forall i :: 0 <= i < |es| ==> Working(es[i])
    ensures |es| <= Measure(s)
    decreases |es|
  {
    if es == [] {
      ChangesAreNatural(s.calls, |s.calls|);
      MeasureIsNatural(s.calls, |s.calls|, Changes(s), s.queued);
    } else {
      StepInv(s, es[0]);
      WorkRunsOut(s, es[0]);
      RunsAreFinite(Apply(s, es[0]), es[1..]);
    }
  }

  lemma {:induction false} NothingHeld(calls: seq<Call>, n: nat)
    requires n <= |calls| && forall i :: 0 <= i < |calls| ==> Over(calls[i])
    ensures Sum(calls, n, Held) == 0
  {
    if n > 0 {
      NothingHeld(calls, n - 1);
    }
  }

  /** And where it ends every body offered has been given to the spool file once or counted
      as dropped once, and nothing is reserved. */
  lemma EveryBodyIsAccountedFor(es: seq<Event>, i: nat)
    requires IsRun(Init(), es) && Settled(Run(Init(), es)) && i < |Run(Init(), es).calls|
    ensures var s := Run(Init(), es);
      s.queued == 0 && s.ch == [] && Distinct(s.attempts) && (i in s.attempts <==> !s.calls[i].stage.Dropped?)
  {
    RunInv(Init(), es);
    var s := Run(Init(), es);
    NothingHeld(s.calls, |s.calls|);
    NothingQueued(s);
  }

  lemma NothingQueued(s: State)
    requires Placed(s)
    ensures s.ch == [] || (s.ch[0] < |s.calls| && !Over(s.calls[s.ch[0]]))
  {
    assert s.ch == [] || s.ch[0] in s.ch;
  }

  // ------------------------------------------------------------ what can always be done

  /** The bodies offered are the same, and what was over is as it was. */
  predicate SameBodies(s: State, t: State) {
    && |t.calls| == |s.calls| && t.closed == s.closed
    && (forall i :: 0 <= i < |s.calls| ==> t.calls[i].len == s.calls[i].len)
    && (forall i :: 0 <= i < |s.calls| && Over(s.calls[i]) ==> t.calls[i] == s.calls[i])
  }

  lemma WorkKeepsBodies(s: State, e: Event)
    requires Placed(s) && Working(e) && Enabled(s, e)
    ensures SameBodies(s, Apply(s, e))
  {
    if e.Receive? {
      assert s.ch[0] in s.ch;
    }
  }

  lemma RunOne(s: State, e: Event, rest: seq<Event>)
    requires Enabled(s, e) && IsRun(Apply(s, e), rest)
    ensures IsRun(s, [e] + rest) && Run(s, [e] + rest) == Run(Apply(s, e), rest)
  {
    assert ([e] + rest)[1..] == rest;
  }

  lemma {:induction false} RunAppend(s: State, a: seq<Event>, b: seq<Event>)
    requires IsRun(s, a) && IsRun(Run(s, a), b)
    ensures IsRun(s, a + b) && Run(s, a + b) == Run(Run(s, a), b)
    decreases |a|
  {
    if a == [] {
      assert a + b == b;
    } else {
      RunAppend(Apply(s, a[0]), a[1..], b);
      assert (a + b)[1..] == a[1..] + b;
    }
  }

  /** The work can always be finished. */
  lemma {:induction false} WorkCanFinish(s: State) returns (es: seq<Event>)
    requires Inv(s)
    ensures IsRun(s, es) && Inv(Run(s, es)) && Settled(Run(s, es)) && SameBodies(s, Run(s, es))
    decreases Measure(s)
  {
    if Settled(s) {
      return [];
    }
    NeverStuck(s);
    var e :| Working(e) && Enabled(s, e);
    StepInv(s, e);
    WorkRunsOut(s, e);
    WorkKeepsBodies(s, e);
    var rest := WorkCanFinish(Apply(s, e));
    RunOne(s, e, rest);
    es := [e] + rest;
  }

  lemma SettledIsQuiet(s: State)
    requires Inv(s) && Settled(s)
    ensures s.queued == 0 && s.ch == [] && (s.writer.Waiting? || s.writer.Exited?)
    ensures s.writer.Exited? ==> s.closed
    ensures !s.closed ==> Enabled(s, Close)
  {
    NothingHeld(s.calls, |s.calls|);
    NothingQueued(s);
  }

  /** A spool can always be shut down: every body offered is written or dropped first, and the
      writer ends. */
  lemma ASpoolCanClose(es: seq<Event>) returns (more: seq<Event>)
    requires IsRun(Init(), es)
    ensures IsRun(Run(Init(), es), more)
    ensures var s, t := Run(Init(), es), Run(Run(Init(), es), more);
      && t.closed && t.writer.Exited? && t.queued == 0 && t.ch == [] && Settled(t)
      && SameBodies(s, t.(closed := s.closed))
  {
    RunInv(Init(), es);
    var s := Run(Init(), es);
    var work := WorkCanFinish(s);
    var u := Run(s, work);
    SettledIsQuiet(u);
    var closed := if u.closed then u else Apply(u, Close);
    var end := if u.writer.Exited? then [] else [Exit] + [];
    if !u.writer.Exited? {
      RunOne(closed, Exit, []);
    }
    if !u.closed {
      RunOne(u, Close, end);
      end := [Close] + end;
    }
    RunAppend(s, work, end);
    more := work + end;
  }

  /** And a body that fits the budget can always be spooled while the server is open, whatever
      has been offered, written or dropped before. */
  lemma ABodyCanBeSpooled(es: seq<Event>, len: nat) returns (more: seq<Event>)
    requires IsRun(Init(), es) && !Run(Init(), es).closed && len <= SPOOL_BUDGET_BYTES
    ensures IsRun(Run(Init(), es), more)
    ensures var s, t := Run(Init(), es), Run(Run(Init(), es), more);
      && |t.calls| == |s.calls| + 1 && t.calls[|s.calls|] == Call(len, Spooled) && |s.calls| in t.attempts
      && SameBodies(s, t.(calls := t.calls[..|s.calls|]))
  {
    RunInv(Init(), es);
    var s := Run(Init(), es);
    var work := WorkCanFinish(s);
    SettledIsQuiet(Run(s, work));
    var one := SpoolOne(Run(s, work), len);
    RunAppend(s, work, one);
    more := work + one;
  }

  lemma SpoolOne(s: State, len: nat) returns (es: seq<Event>)
    requires !s.closed && s.queued == 0 && s.ch == [] && s.writer.Waiting? && len <= SPOOL_BUDGET_BYTES
    ensures IsRun(s, es)
    ensures Run(s, es) == s.(calls := s.calls + [Call(len, Spooled)], attempts := s.attempts + [|s.calls|])
  {
    var i := |s.calls|;
    var s1 := Apply(s, Enter(len));
    assert s1.calls[i] == Call(len, Loading);
    var s2 := Apply(s1, Load(i));
    assert s2 == s.(calls := s.calls + [Call(len, Swapping(0))]);
    var s3 := Apply(s2, CompareAndSwap(i));
    assert s3 == s.(calls := s.calls + [Call(len, Reserved)], queued := len);
    var s4 := Apply(s3, Send(i));
    assert s4 == s.(calls := s.calls + [Call(len, Queued)], queued := len, ch := [i]);
    var s5 := Apply(s4, Receive);
    assert s5 == s.(calls := s.calls + [Call(len, Writing)], queued := len, writer := Has(i));
    var s6 := Apply(s5, Append);
    var s7 := Apply(s6, ReleaseWritten);
    assert s7 == s.(calls := s.calls + [Call(len, Spooled)], attempts := s.attempts + [i]);
    RunOne(s6, ReleaseWritten, []);
    RunOne(s5, Append, [ReleaseWritten] + []);
    RunOne(s4, Receive, [Append] + ([ReleaseWritten] + []));
    var rest := [Receive] + ([Append] + ([ReleaseWritten] + []));
    RunOne(s3, Send(i), rest);
    RunOne(s2, CompareAndSwap(i), [Send(i)] + rest);
    RunOne(s1, Load(i), [CompareAndSwap(i)] + ([Send(i)] + rest));
    RunOne(s, Enter(len), [Load(i)] + ([CompareAndSwap(i)] + ([Send(i)] + rest)));
    es := [Enter(len)] + ([Load(i)] + ([CompareAndSwap(i)] + ([Send(i)] + rest)));
  }
}
