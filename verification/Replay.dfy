/** writeReplayEvents against a live server: between any two of its reads the
    persister may append, retention may prune, and markers may move the gap mark.
    replayMu keeps retention out only from MinID to ReplayRange of one batch. */
module Replay {
  import opened Wrappers
  import opened Records
  import opened EventLog
  import Broker

  const MAX_POLLS := 40

  /** How writeReplayEvents returns: nil, a replayGapError, or another error. */
  datatype Outcome =
    | Done
    | Gap(oldest: nat, missing: nat, reason: Broker.Reason)
    | Failed

  /** The records the watch and status filters let through. */
  function Kept(rs: seq<Rec>, keep: Rec -> bool): seq<Rec> {
    if rs == [] then []
    else
      var front := Kept(rs[..|rs| - 1], keep);
      if keep(rs[|rs| - 1]) then front + [rs[|rs| - 1]] else front
  }

  lemma KeptSnoc(rs: seq<Rec>, r: Rec, keep: Rec -> bool)
    ensures Kept(rs + [r], keep) == if keep(r) then Kept(rs, keep) + [r] else Kept(rs, keep)
  {
  }

  /** A batch holds records of the log with ids in the range, in id order. */
  lemma BatchFromLog(log: seq<Rec>, after: nat, until: nat, limit: nat)
    requires Increasing(log) && until > 0
    ensures var b := Broker.ReplayRange(log, after, until, limit);
            Increasing(b) && forall r :: r in b ==> r in log && after < r.id <= until
  {
    BetweenMembers(log, after, until);
  }

  /** Ids after+1, after+2, ... */
  predicate Consecutive(rs: seq<Rec>, after: nat) {
    forall i :: 0 <= i < |rs| ==> rs[i].id == after + 1 + i
  }

  /** `now` knows everything `before` did. */
  ghost predicate Grown(before: map<nat, LiveEvent>, now: map<nat, LiveEvent>) {
    forall id :: id in before ==> id in now && now[id] == before[id]
  }

  /** Every record is the one logged under its id. */
  ghost predicate AsLogged(rs: seq<Rec>, logged: map<nat, LiveEvent>) {
    forall i :: 0 <= i < |rs| ==> rs[i].id in logged && logged[rs[i].id] == rs[i].ev
  }

  /** The shared state a replay reads. `logged` is what has ever been in the log, by
      id; no id above `top` has been used. `alone` says that nothing else is running and
      `healthy` that no read or write fails and the request is not cancelled: neither is
      assumed, but what is promised depends on them. */
  class ReplayServer {
    const store: BoltStore
    const alone: bool
    const healthy: bool
    var durableID: nat
    var mark: Option<Broker.Mark>
    var top: nat
    ghost var logged: map<nat, LiveEvent>

    ghost predicate Valid()
      reads this, store
    {
      && store.Valid()
      && (mark.Some? ==> mark.value.reason.QueueFull? || mark.value.reason.PersistFailed?)
      && AsLogged(store.Log(), logged)
      && (forall id :: id in logged ==> 0 < id <= top)
    }

    constructor (alone: bool, healthy: bool)
      ensures Valid() && fresh(store) && this.alone == alone && this.healthy == healthy
    {
      store := new BoltStore();
      this.alone, this.healthy := alone, healthy;
      durableID, mark, logged, top := 0, None, map[], 0;
    }

    /** What the rest of the server may do in between: any number of appends of fresh
        ids, any number of prunes unless replayMu is held, any growth of durableID and any
        change of the mark. */
    method Interfere(locked: bool)
      requires Valid()
      modifies this`durableID, this`mark, this`logged, this`top, store`bucket
      ensures Valid() && Grown(old(logged), logged) && old(durableID) <= durableID
      ensures locked ==> old(store.Log()) <= store.Log()
      ensures alone ==> durableID == old(durableID) && mark == old(mark) && store.bucket == old(store.bucket)
    {
      if alone {
        return;
      }
      var marked: nat, full: bool, touched: bool, rounds: nat := *, *, *, *;
      var stored: nat := *;
      if stored > durableID {
        durableID := stored;
      }
      if touched {
        mark := Some(Broker.Mark(marked, if full then Broker.QueueFull else Broker.PersistFailed));
      }
      while rounds > 0
        invariant Valid() && Grown(old(logged), logged) && old(durableID) <= durableID
        invariant locked ==> old(store.Log()) <= store.Log()
      {
        var prune: bool := *;
        if prune && !locked {
          PruneSome();
        }
        AppendSome();
        rounds := rounds - 1;
      }
    }

    method PruneSome()
      requires Valid()
      modifies store`bucket
      ensures Valid()
    {
      var before: Option<int>, keepN: int := *, *;
      var d := store.Prune(before, keepN);
    }

    method AppendSome()
      requires Valid()
      modifies this`logged, this`top, store`bucket
      ensures Valid() && Grown(old(logged), logged)
      ensures old(store.Log()) <= store.Log()
    {
      var ev: LiveEvent, append: bool, committed: bool := *, *, *;
      var last := store.LastID();
      if append && last < MAX_ID && top < MAX_ID {
        var id: nat := (if last > top then last else top) + 1;
        var ok := store.AppendWithID(id, ev, committed);
        if ok {
          logged := logged[id := ev];
          top := id;
        }
      }
    }

    /** waitDurable: polls until the range is durable, the request is cancelled or it has
        polled MAX_POLLS times. `seen` is the last durableID it has read: the answer is
        whether that reaches `until`. */
    method WaitDurable(until: nat) returns (durable: bool, seen: nat, cancelled: bool, polls: nat)
      requires Valid()
      modifies this`durableID, this`mark, this`logged, this`top, store`bucket
      ensures Valid() && Grown(old(logged), logged)
      ensures old(durableID) <= seen <= durableID
      ensures durable <==> until == 0 || seen >= until
      ensures !durable ==> cancelled || polls == MAX_POLLS
      ensures healthy ==> !cancelled
      ensures alone ==> durableID == old(durableID) && mark == old(mark) && store.bucket == old(store.bucket)
    {
      seen, cancelled, polls := durableID, false, 0;
      if until == 0 {
        return true, seen, cancelled, polls;
      }
      while polls < MAX_POLLS && durableID < until
        invariant Valid() && Grown(old(logged), logged) && old(durableID) <= durableID && polls <= MAX_POLLS
        invariant alone ==> durableID == old(durableID) && mark == old(mark) && store.bucket == old(store.bucket)
      {
        seen := durableID;
        cancelled := *;
        if cancelled && !healthy {
          return false, seen, cancelled, polls;
        }
        Interfere(false);
        polls := polls + 1;
      }
      seen, cancelled := durableID, false;
      durable := seen >= until;
    }

    /** replayGap: the error carries the oldest id that survives, or the missing one
        when the log is empty. */
    method ReplayGap(missing: nat, reason: Broker.Reason) returns (out: Outcome)
      requires Valid()
      ensures out.Gap? || out.Failed?
      ensures healthy ==> out.Gap?
      ensures out.Gap? ==> out.missing == missing && out.reason == reason
      ensures out.Gap? ==> out.oldest == Oldest(store.Log(), missing)
    {
      var readError: bool := *;
      if readError && !healthy {
        return Failed;
      }
      var oldest := store.MinID();
      if oldest == 0 {
        oldest := missing;
      }
      return Gap(oldest, missing, reason);
    }

    /** The gap mark, and what is answered if it lies in the range. */
    method MarkInRange(pos: nat, until: nat) returns (gap: Option<Outcome>)
      requires Valid() && pos < until
      modifies this`durableID, this`mark, this`logged, this`top, store`bucket
      ensures Valid() && Grown(old(logged), logged) && old(durableID) <= durableID
      ensures gap.Some? ==> BatchVerdict(gap.value, pos, until)
      ensures alone ==> durableID == old(durableID) && mark == old(mark) && store.bucket == old(store.bucket)
      ensures alone ==> (gap.Some? <==> Broker.GapInRange(mark, pos, until).Some?)
      ensures alone && healthy && gap.Some? ==> gap.value == MarkGap(mark.value, store.Log())
    {
      gap := None;
      Interfere(false);
      var mk := Broker.GapInRange(mark, pos, until);
      Interfere(false);
      if mk.Some? {
        var out := ReplayGap(mk.value.id, mk.value.reason);
        gap := Some(out);
      }
    }

    /** The checks before the first batch: a mark in the range, or a range that is not
        durable in time, for which durableID is read once more. */
    method Precheck(after: nat, until: nat) returns (gap: Option<Outcome>, seen: nat, loaded: nat)
      requires Valid() && after < until
      modifies this`durableID, this`mark, this`logged, this`top, store`bucket
      ensures Valid() && Grown(old(logged), logged)
      ensures gap.Some? ==> BatchVerdict(gap.value, after, until) || NotDurableVerdict(gap.value, after, until, seen, loaded)
      ensures gap.Some? && gap.value.Gap? && gap.value.reason.NotDurable? ==> old(durableID) <= seen
      ensures alone ==> durableID == old(durableID) && mark == old(mark) && store.bucket == old(store.bucket)
      ensures alone && healthy ==>
        (gap.None? <==> Broker.GapInRange(old(mark), after, until).None? && old(durableID) >= until)
      ensures alone && healthy && Broker.GapInRange(old(mark), after, until).Some? ==>
        gap.value == MarkGap(old(mark).value, old(store.Log()))
      ensures alone && healthy && Broker.GapInRange(old(mark), after, until).None? && gap.Some? ==>
        gap.value == NotDurableGap(old(durableID), after, old(store.Log()))
    {
      seen, loaded := durableID, durableID;
      gap := MarkInRange(after, until);
      if gap.Some? {
        return;
      }
      var durable, cancelled, polls;
      durable, seen, cancelled, polls := WaitDurable(until);
      if durable {
        return;
      }
      Interfere(false);
      loaded := durableID;
      var missing := loaded + 1;
      if missing <= after {
        missing := after + 1;
      }
      Interfere(false);
      var out := ReplayGap(missing, Broker.NotDurable);
      gap := Some(out);
    }

    /** One round of the loop up to its batch: mark, MinID and ReplayRange, the last two
        with replayMu held. Without a verdict the batch holds logged records of the
        range, in order; alone, what the log holds from there on. */
    method NextBatch(pos: nat, until: nat) returns (batch: seq<Rec>, oldest: nat, gap: Option<Outcome>)
      requires Valid() && pos < until <= MAX_ID
      modifies this`durableID, this`mark, this`logged, this`top, store`bucket
      ensures Valid() && Grown(old(logged), logged)
      ensures gap.Some? ==> BatchVerdict(gap.value, pos, until)
      ensures gap.None? ==> batch != [] && Increasing(batch) && AsLogged(batch, logged)
      ensures gap.None? ==> forall r :: r in batch ==> pos < r.id <= until
      ensures alone ==> durableID == old(durableID) && mark == old(mark) && store.bucket == old(store.bucket)
      ensures alone && gap.None? ==> batch == Broker.ReplayRange(store.Log(), pos, until, REPLAY_BATCH)
      ensures alone && gap.None? ==> oldest == FirstId(store.Log()) <= pos + 1
      ensures alone && healthy && gap.Some? && Broker.GapInRange(mark, pos, until).None? ==>
        IsMissingGap(gap.value, store.Log(), pos, pos + 1, until)
      ensures alone && Broker.GapInRange(mark, pos, until).Some? ==>
        gap.Some? && (healthy ==> gap.value == MarkGap(mark.value, store.Log()))
    {
      batch, oldest := [], 0;
      gap := MarkInRange(pos, until);
      if gap.Some? {
        return;
      }
      oldest := store.MinID();
      if oldest > pos + 1 {
        FirstIsLeast(store.Log());
        return [], oldest, Some(Gap(oldest, pos + 1, Broker.Pruned));
      }
      var failed;
      batch, failed := ReadBatch(pos, until);
      if failed {
        gap := Some(Failed);
      } else if |batch| == 0 {
        NothingInRange(store.Log(), pos, until, REPLAY_BATCH);
        Interfere(false);
        var out := ReplayGap(pos + 1, Broker.Missing);
        gap := Some(out);
      }
    }

    /** ReplayRange, with replayMu still held since MinID. */
    method ReadBatch(pos: nat, until: nat) returns (batch: seq<Rec>, failed: bool)
      requires Valid() && pos < until <= MAX_ID
      modifies this`durableID, this`mark, this`logged, this`top, store`bucket
      ensures Valid() && Grown(old(logged), logged)
      ensures healthy ==> !failed
      ensures !failed ==> batch == Broker.ReplayRange(store.Log(), pos, until, REPLAY_BATCH)
      ensures !failed ==> Increasing(batch) && AsLogged(batch, logged) && forall r :: r in batch ==> pos < r.id <= until
      ensures alone ==> durableID == old(durableID) && mark == old(mark) && store.bucket == old(store.bucket)
    {
      Interfere(true);
      batch, failed := [], *;
      failed := failed && !healthy;
      if !failed {
        batch := store.ReplayRange(pos, until, REPLAY_BATCH);
        BatchFromLog(store.Log(), pos, until, REPLAY_BATCH);
        BatchAsLogged(store.Log(), batch, logged);
      }
    }

    /** One round of the loop: the next batch, and the frames of its records. */
    method ReplayRound(pos: nat, until: nat, keep: Rec -> bool, ghost log: seq<Rec>)
      returns (more: seq<Rec>, written: seq<Rec>, verdict: Option<Outcome>)
      requires Valid() && pos < until <= MAX_ID && log == store.Log()
      modifies this`durableID, this`mark, this`logged, this`top, store`bucket
      ensures Valid() && Grown(old(logged), logged)
      ensures RoundOk(more, written, verdict, pos, until, keep, logged)
      ensures alone ==> mark == old(mark) && store.bucket == old(store.bucket)
      ensures alone ==> RoundAlone(more, verdict, log, pos, until,
          healthy && Broker.GapInRange(old(mark), pos, until).None?)
    {
      var batch, oldest;
      batch, oldest, verdict := NextBatch(pos, until);
      if verdict.Some? {
        return [], [], verdict;
      }
      more, written, verdict := WriteRound(pos, until, batch, oldest, keep, healthy, logged, store.Log());
    }

    /** The loop of writeReplayEvents. */
    method ReplayBatches(after: nat, until: nat, keep: Rec -> bool)
      returns (examined: seq<Rec>, written: seq<Rec>, out: Outcome)
      requires Valid() && after < until <= MAX_ID
      modifies this`durableID, this`mark, this`logged, this`top, store`bucket
      ensures Valid() && Grown(old(logged), logged)
      ensures RoundOk(examined, written, if out.Done? then None else Some(out), after, until, keep, logged)
      ensures out.Done? ==> |examined| == until - after
      ensures alone ==> RoundAlone(examined, if out.Done? then None else Some(out), old(store.Log()), after, until,
          healthy && Broker.GapInRange(old(mark), after, until).None?)
    {
      examined, written, out := [], [], Done;
      ghost var log, clean := store.Log(), healthy && Broker.GapInRange(mark, after, until).None?;
      var pos := after;
      while true
        invariant Valid() && Grown(old(logged), logged) && pos == after + |examined| && pos < until
        invariant SoFarOk(examined, written, after, keep, logged)
        invariant alone ==> mark == old(mark) && store.bucket == old(store.bucket) && SoFarAlone(examined, log, after)
        decreases until - pos
      {
        ghost var before, cleanHere := logged, healthy && Broker.GapInRange(mark, pos, until).None?;
        FurtherOn(mark, after, pos, until);
        var more, frames, verdict := ReplayRound(pos, until, keep, store.Log());
        JoinRound(examined, written, more, frames, verdict, after, until, keep, before, logged);
        if alone {
          JoinAlone(examined, more, verdict, log, after, pos, until, cleanHere, clean);
        }
        examined, written, pos := examined + more, written + frames, pos + |more|;
        if verdict.Some? {
          return examined, written, verdict.value;
        }
        if pos >= until {
          return examined, written, Done;
        }
      }
    }

    /** writeReplayEvents for (after, until]. Whatever happens around it, the records
        it has examined are those with ids after+1, after+2, ... in order, each as it
        was logged; nil means all of the range; "hole", "pruned" and "missing" name
        the first id not examined, and a gap mark an id not examined; "not_durable" that
        the wait ended on a durableID below `until`. What it wrote is what it examined,
        filtered. Alone and healthy, it answers nil exactly if no mark lies in the range and
        all of it is durable and in the log, and otherwise names the mark, the first id
        that is not durable, or the first that is not in the log. */
    method WriteReplayEvents(after: nat, until: nat, keep: Rec -> bool)
      returns (examined: seq<Rec>, written: seq<Rec>, out: Outcome, seen: nat, loaded: nat)
      requires Valid() && after < until <= MAX_ID
      modifies this`durableID, this`mark, this`logged, this`top, store`bucket
      ensures Valid() && Grown(old(logged), logged)
      ensures |examined| <= until - after
      ensures Consecutive(examined, after) && AsLogged(examined, logged)
      ensures out.Done? ==> |examined| == until - after
      ensures out.Done? || BatchVerdict(out, after + |examined|, until) ||
          (NotDurableVerdict(out, after, until, seen, loaded) && examined == [])
      ensures out.Gap? && out.reason.NotDurable? ==> old(durableID) <= seen
      ensures !out.Failed? ==> written == Kept(examined, keep)
      ensures alone && healthy ==>
        AloneVerdict(examined, out, old(mark), old(durableID), old(store.Log()), after, until)
    {
      examined, written, out := [], [], Done;
      ghost var log := store.Log();
      var gap;
      gap, seen, loaded := Precheck(after, until);
      if gap.Some? {
        return [], [], gap.value, seen, loaded;
      }
      examined, written, out := ReplayBatches(after, until, keep);
      if alone {
        AllHeld(examined, log, after);
      }
    }
  }

  /** The oldest id that survives, or, on an empty log, the missing one. */
  function Oldest(log: seq<Rec>, missing: nat): nat {
    if FirstId(log) == 0 then missing else FirstId(log)
  }

  function MarkGap(mark: Broker.Mark, log: seq<Rec>): Outcome {
    Gap(Oldest(log, mark.id), mark.id, mark.reason)
  }

  /** The missing id is the first above both `after` and what is durable. */
  function NotDurableGap(durableID: nat, after: nat, log: seq<Rec>): Outcome {
    var missing := (if durableID > after then durableID else after) + 1;
    Gap(Oldest(log, missing), missing, Broker.NotDurable)
  }

  /** The range at `pos` lacks `missing`: retention has taken its first ids, or the log holds
      nothing of what is left of it, or there is a hole. */
  ghost function MissingGap(log: seq<Rec>, pos: nat, missing: nat, until: nat): Outcome {
    Gap(Oldest(log, missing), missing,
        if FirstId(log) > pos + 1 then Broker.Pruned
        else if forall r :: r in log ==> r.id <= missing || until < r.id then Broker.Missing
        else Broker.Hole)
  }

  ghost predicate IsMissingGap(out: Outcome, log: seq<Rec>, pos: nat, missing: nat, until: nat) {
    out == MissingGap(log, pos, missing, until) && missing !in Ids(log)
  }

  /** What a round, or all of them, has examined and written from `pos` on, and how it ended:
      without a verdict if there is more to do. */
  ghost predicate RoundOk(more: seq<Rec>, written: seq<Rec>, verdict: Option<Outcome>, pos: nat, until: nat,
      keep: Rec -> bool, logged: map<nat, LiveEvent>)
  {
    && Consecutive(more, pos) && AsLogged(more, logged) && pos + |more| <= until
    && (verdict.None? ==> more != [])
    && (verdict.Some? ==> BatchVerdict(verdict.value, pos + |more|, until))
    && (verdict.Some? && verdict.value.Gap? ==> pos + |more| < until)
    && (verdict != Some(Failed) ==> written == Kept(more, keep))
  }

  /** And if nothing has disturbed it; `clean` says that nothing failed and no mark was met. */
  ghost predicate RoundAlone(more: seq<Rec>, verdict: Option<Outcome>, log: seq<Rec>, pos: nat, until: nat, clean: bool)
  {
    && (forall r :: r in more ==> r in log)
    && (verdict.None? ==> FirstId(log) <= pos + 1)
    && (verdict.Some? && clean ==> IsMissingGap(verdict.value, log, pos, pos + |more| + 1, until))
  }

  ghost predicate SoFarOk(examined: seq<Rec>, written: seq<Rec>, after: nat, keep: Rec -> bool,
      logged: map<nat, LiveEvent>)
  {
    Consecutive(examined, after) && AsLogged(examined, logged) && written == Kept(examined, keep)
  }

  ghost predicate SoFarAlone(examined: seq<Rec>, log: seq<Rec>, after: nat) {
    (forall r :: r in examined ==> r in log) && (examined != [] ==> FirstId(log) <= after + 1)
  }

  /** No mark in a range is none in the rest of it. */
  lemma FurtherOn(mark: Option<Broker.Mark>, after: nat, pos: nat, until: nat)
    requires after <= pos
    ensures Broker.GapInRange(mark, after, until).None? ==> Broker.GapInRange(mark, pos, until).None?
  {
  }

  /** A round continues what was examined before it. */
  lemma JoinRound(examined: seq<Rec>, written: seq<Rec>, more: seq<Rec>, frames: seq<Rec>, verdict: Option<Outcome>,
      after: nat, until: nat, keep: Rec -> bool, before: map<nat, LiveEvent>, logged: map<nat, LiveEvent>)
    requires SoFarOk(examined, written, after, keep, before) && Grown(before, logged)
    requires RoundOk(more, frames, verdict, after + |examined|, until, keep, logged)
    ensures RoundOk(examined + more, written + frames, verdict, after, until, keep, logged)
    ensures verdict.None? ==> SoFarOk(examined + more, written + frames, after, keep, logged)
  {
    StillAsLogged(examined, before, logged);
    KeptConcat(examined, more, keep);
  }

  /** A round further on gives the same reason, as what came before it was there. */
  lemma JoinAlone(examined: seq<Rec>, more: seq<Rec>, verdict: Option<Outcome>, log: seq<Rec>, after: nat, pos: nat,
      until: nat, cleanHere: bool, clean: bool)
    requires SoFarAlone(examined, log, after) && (clean ==> cleanHere) && pos == after + |examined|
    requires RoundAlone(more, verdict, log, pos, until, cleanHere)
    ensures RoundAlone(examined + more, verdict, log, after, until, clean)
    ensures verdict.None? ==> SoFarAlone(examined + more, log, after)
  {
  }

  /** What a replay answers that nothing disturbs: a mark in the range, a range that is not
      durable, or the first id the log does not hold; and otherwise nil, all of it. */
  ghost predicate AloneVerdict(examined: seq<Rec>, out: Outcome, mark: Option<Broker.Mark>, durableID: nat,
      log: seq<Rec>, after: nat, until: nat)
  {
    if Broker.GapInRange(mark, after, until).Some? then out == MarkGap(mark.value, log)
    else if durableID < until then out == NotDurableGap(durableID, after, log)
    else
      && (out.Done? <==> Holds(log, after, until))
      && (out.Done? || IsMissingGap(out, log, after, after + |examined| + 1, until))
  }

  /** The log holds every id of the range. */
  ghost predicate Holds(log: seq<Rec>, after: nat, until: nat) {
    forall id :: after < id <= until ==> id in Ids(log)
  }

  lemma FirstIsLeast(log: seq<Rec>)
    requires Increasing(log)
    ensures forall r :: r in log ==> FirstId(log) <= r.id
  {
  }

  lemma NothingInRange(log: seq<Rec>, after: nat, until: nat, limit: nat)
    requires Increasing(log) && 0 < limit && after < until && Broker.ReplayRange(log, after, until, limit) == []
    ensures after + 1 !in Ids(log) && forall r :: r in log ==> r.id <= after + 1 || until < r.id
  {
    BetweenMembers(log, after, until);
    assert Between(log, after, until) == [];
  }

  /** A record of the log below one of a batch is earlier in the batch. */
  lemma BelowIsEarlier(log: seq<Rec>, after: nat, until: nat, limit: nat, k: nat, r: Rec)
    requires Increasing(log) && until > 0 && k < |Broker.ReplayRange(log, after, until, limit)|
    requires r in log && after < r.id < Broker.ReplayRange(log, after, until, limit)[k].id
    ensures r in Broker.ReplayRange(log, after, until, limit)[..k]
  {
    var run, batch := Between(log, after, until), Broker.ReplayRange(log, after, until, limit);
    BetweenMembers(log, after, until);
    assert batch[k] == run[k] && run[k] in run && r in run;
    var i :| 0 <= i < |run| && run[i] == r;
    assert i < k && batch[..k][i] == r;
  }

  /** What a batch passes over is not in the log. */
  lemma HoleIsMissing(log: seq<Rec>, after: nat, until: nat, limit: nat, more: seq<Rec>)
    requires Increasing(log) && until > 0 && Consecutive(more, after)
    requires more < Broker.ReplayRange(log, after, until, limit)
    requires after + |more| + 1 < Broker.ReplayRange(log, after, until, limit)[|more|].id
    ensures after + |more| + 1 !in Ids(log) && exists r :: r in log && after + |more| + 1 < r.id <= until
  {
    BatchFromLog(log, after, until, limit);
    assert Broker.ReplayRange(log, after, until, limit)[|more|] in Broker.ReplayRange(log, after, until, limit);
    var batch, next := Broker.ReplayRange(log, after, until, limit), after + |more| + 1;
    forall r | r in log && after < r.id < batch[|more|].id ensures r.id < next {
      BelowIsEarlier(log, after, until, limit, |more|, r);
      assert batch[..|more|] == more;
      var i :| 0 <= i < |more| && more[i] == r;
    }
  }

  lemma MoreIsHeld(log: seq<Rec>, after: nat, until: nat, limit: nat, more: seq<Rec>)
    requires Increasing(log) && until > 0 && more <= Broker.ReplayRange(log, after, until, limit)
    ensures forall r :: r in more ==> r in log
  {
    BatchFromLog(log, after, until, limit);
    forall r | r in more ensures r in Broker.ReplayRange(log, after, until, limit) { }
  }

  lemma AllHeld(examined: seq<Rec>, log: seq<Rec>, after: nat)
    requires Consecutive(examined, after) && forall r :: r in examined ==> r in log
    ensures Holds(log, after, after + |examined|)
  {
    forall id | after < id <= after + |examined| ensures id in Ids(log) {
      var r := examined[id - after - 1];
      assert r in examined && r.id == id;
    }
  }

  /** What a round of the loop at `pos` may answer with: nothing, an error, or a gap
      whose missing id is the next one, or a marked one further on. */
  ghost predicate BatchVerdict(out: Outcome, pos: nat, until: nat) {
    match out
    case Done => false
    case Failed => true
    case Gap(oldest, missing, reason) =>
      match reason
      case Hole => missing == pos + 1
      case Missing => missing == pos + 1
      case Pruned => missing == pos + 1 < oldest
      case QueueFull => pos < missing <= until
      case PersistFailed => pos < missing <= until
      case _ => false
  }

  /** The wait ended on a durableID below `until`, and the missing id is the first above
      both `after` and the durableID read then. */
  ghost predicate NotDurableVerdict(out: Outcome, after: nat, until: nat, seen: nat, loaded: nat) {
    && out.Gap? && out.reason.NotDurable?
    && seen < until && seen <= loaded
    && after < out.missing && loaded < out.missing && (out.missing == after + 1 || out.missing == loaded + 1)
  }

  lemma StillAsLogged(rs: seq<Rec>, before: map<nat, LiveEvent>, now: map<nat, LiveEvent>)
    requires AsLogged(rs, before) && Grown(before, now)
    ensures AsLogged(rs, now)
  {
  }

  lemma BatchAsLogged(log: seq<Rec>, batch: seq<Rec>, logged: map<nat, LiveEvent>)
    requires AsLogged(log, logged) && forall r :: r in batch ==> r in log
    ensures AsLogged(batch, logged)
  {
    forall i | 0 <= i < |batch| ensures batch[i].id in logged && logged[batch[i].id] == batch[i].ev {
      assert batch[i] in batch;
      var j :| 0 <= j < |log| && log[j] == batch[i];
    }
  }

  lemma {:induction false} KeptConcat(a: seq<Rec>, b: seq<Rec>, keep: Rec -> bool)
    ensures Kept(a + b, keep) == Kept(a, keep) + Kept(b, keep)
  {
    if b == [] {
      assert a + b == a;
    } else {
      assert (a + b)[..|a + b| - 1] == a + b[..|b| - 1];
      KeptConcat(a, b[..|b| - 1], keep);
    }
  }

  /** The part of a round that needs no shared state: `log` is what the batch was read from,
      if nothing has changed since. */
  method WriteRound(pos: nat, until: nat, batch: seq<Rec>, oldest: nat, keep: Rec -> bool, healthy: bool,
      ghost logged: map<nat, LiveEvent>, ghost log: seq<Rec>)
    returns (more: seq<Rec>, written: seq<Rec>, verdict: Option<Outcome>)
    requires batch != [] && Increasing(batch) && (forall r :: r in batch ==> pos < r.id <= until)
    requires AsLogged(batch, logged) && Increasing(log) && Positive(log)
    ensures RoundOk(more, written, verdict, pos, until, keep, logged)
    ensures batch == Broker.ReplayRange(log, pos, until, REPLAY_BATCH) && oldest == FirstId(log) <= pos + 1 ==>
      RoundAlone(more, verdict, log, pos, until, healthy)
  {
    assert batch[0] in batch;
    var hole, failed;
    more, written, hole, failed := WriteBatch(pos, until, batch, keep, healthy);
    verdict := if failed then Some(Failed) else if hole then Some(Gap(oldest, pos + |more| + 1, Broker.Hole)) else None;
    if batch == Broker.ReplayRange(log, pos, until, REPLAY_BATCH) {
      MoreIsHeld(log, pos, until, REPLAY_BATCH, more);
      if hole {
        HoleIsMissing(log, pos, until, REPLAY_BATCH, more);
        assert log != [] && FirstId(log) > 0;
      }
    }
  }

  /** The frames of one batch: each record must carry the next expected id, up to the
      first that does not; a failed write ends the replay. */
  method WriteBatch(pos: nat, until: nat, batch: seq<Rec>, keep: Rec -> bool, healthy: bool)
    returns (examined: seq<Rec>, written: seq<Rec>, hole: bool, failed: bool)
    requires batch != [] && Increasing(batch) && forall r :: r in batch ==> pos < r.id <= until
    ensures examined <= batch && Consecutive(examined, pos) && pos + |examined| <= until
    ensures !failed ==> written == Kept(examined, keep)
    ensures healthy ==> !failed
    ensures hole ==> !failed && |examined| < |batch| && pos + |examined| + 1 < batch[|examined|].id
    ensures !hole && !failed ==> examined == batch && pos + |batch| == batch[|batch| - 1].id
  {
    examined, written, hole, failed := [], [], false, false;
    var expected := pos + 1;
    assert batch[0] in batch;
    var i := 0;
    while i < |batch|
      invariant i <= |batch| && examined == batch[..i] && expected == pos + i + 1
      invariant Consecutive(examined, pos) && pos + i <= until
      invariant i > 0 ==> batch[i - 1].id == pos + i
      invariant written == Kept(examined, keep) && !hole && !failed
    {
      if batch[i].id != expected {
        hole := true;
        return;
      }
      assert batch[i] in batch;
      expected := batch[i].id + 1;
      KeptSnoc(batch[..i], batch[i], keep);
      assert batch[..i + 1] == batch[..i] + [batch[i]];
      examined := examined + [batch[i]];
      if keep(batch[i]) {
        var writeError: bool := *;
        if writeError && !healthy {
          failed := true;
          return;
        }
        written := written + [batch[i]];
      }
      i := i + 1;
    }
    assert batch[..i] == batch;
  }
}
