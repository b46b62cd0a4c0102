/** Tool calls of one turn and the tool_results that complete them
    (parser/claudecode/parser.go:275-443), as values: what one result does to one call,
    and the bookkeeping every step of a turn keeps. */
module ToolResults {
  import opened Wrappers

  /** Milliseconds; 0 is the absent time. */
  type Time = nat
  type RawRef = nat

  datatype Status = Unknown | Pending | Success | Failed | Rejected | Interrupted | Active

  datatype ToolUse = ToolUse(useID: string, name: string, input: string)
  /** `declined` tells whether the output carries the text of a user's refusal. */
  datatype ToolResult = ToolResult(useID: string, output: string, isError: bool, declined: bool)

  /** A tool_result with the line it came from. */
  datatype Attached = Attached(result: ToolResult, when: Time, raw: RawRef)

  datatype ToolCall = ToolCall(
    callIndex: nat,
    invocation: nat,
    name: string,
    useID: string,
    input: string,
    status: Status,
    startedAt: Time,
    rawUse: RawRef,
    output: string,
    outputBytes: nat,
    endedAt: Time,
    durationMs: nat,
    rawResult: Option<RawRef>)

  function ResultStatus(r: ToolResult): (status: Status)
    ensures status == Success <==> !r.isError
    ensures status == Failed <==> r.isError && !r.declined
    ensures status == Rejected <==> r.isError && r.declined
  {
    if r.isError && r.declined then Rejected
    else if r.isError then Failed
    else Success
  }

  /** A call with the result applied (applyResult). */
  function Completed(call: ToolCall, a: Attached): ToolCall {
    call.(output := a.result.output,
          outputBytes := |a.result.output|,
          endedAt := a.when,
          rawResult := Some(a.raw),
          durationMs := if call.startedAt != 0 &&
              a.when > call.startedAt then a.when - call.startedAt else call.durationMs,
          status := ResultStatus(a.result))
  }

  /** What a completed call shows of its result: output, times, and how it went. */
  predicate Shows(call: ToolCall, a: Attached) {
    && call.output == a.result.output && call.outputBytes == |a.result.output|
    && call.endedAt == a.when && call.rawResult == Some(a.raw)
    && (call.status == Success <==> !a.result.isError)
    && (call.status == Failed <==> a.result.isError && !a.result.declined)
    && (call.status == Rejected <==> a.result.isError && a.result.declined)
    && call.durationMs == (if call.startedAt != 0 && a.when > call.startedAt then a.when - call.startedAt else 0)
  }

  predicate Unanswered(call: ToolCall) {
    call.status == Pending && call.output == "" && call.outputBytes == 0 && call.endedAt == 0 && call.durationMs == 0 &&
        call.rawResult == None
  }

  lemma CompletedShows(call: ToolCall, a: Attached)
    requires Unanswered(call)
    ensures Shows(Completed(call, a), a)
  {
  }

  /** The calls of a turn in progress, the index by use id, and the results still waiting. */
  datatype Tools = Tools(calls: seq<ToolCall>, byUseID: map<string, nat>, pending: seq<Attached>)

  /** The turn's history: the calls as recorded, the result each has taken, every result
      offered in order, and those reported as unmatched. */
  datatype Log = Log(born: seq<ToolCall>, taken: seq<Option<Attached>>, offered: seq<Attached>,
      unmatched: seq<Attached>)

  function TakenBy(o: Option<Attached>): multiset<Attached> {
    if o.Some? then multiset{o.value} else multiset{}
  }

  /** The results the first `n` calls have taken. */
  function TakenUpTo(taken: seq<Option<Attached>>, n: nat): multiset<Attached>
    requires n <= |taken|
  {
    if n == 0 then multiset{} else TakenUpTo(taken, n - 1) + TakenBy(taken[n - 1])
  }

  function Taken(taken: seq<Option<Attached>>): multiset<Attached> {
    TakenUpTo(taken, |taken|)
  }

  lemma {:induction false} TakenSame(taken: seq<Option<Attached>>, other: seq<Option<Attached>>, n: nat)
    requires n <= |taken| && n <= |other| && forall i :: 0 <= i < n ==> taken[i] == other[i]
    ensures TakenUpTo(taken, n) == TakenUpTo(other, n)
  {
    if n > 0 {
      TakenSame(taken, other, n - 1);
    }
  }

  lemma {:induction false} TakenMoreUpTo(taken: seq<Option<Attached>>, i: nat, a: Attached, n: nat)
    requires i < n <= |taken| && taken[i] == None
    ensures TakenUpTo(taken[i := Some(a)], n) == TakenUpTo(taken, n) + multiset{a}
  {
    var after := taken[i := Some(a)];
    if i == n - 1 {
      TakenSame(taken, after, i);
      assert TakenBy(after[i]) == multiset{a} && TakenBy(taken[i]) == multiset{};
    } else {
      TakenMoreUpTo(taken, i, a, n - 1);
      SwapLast(TakenUpTo(taken, n - 1), multiset{a}, TakenBy(taken[n - 1]));
    }
  }

  lemma SwapLast(x: multiset<Attached>, y: multiset<Attached>, z: multiset<Attached>)
    ensures x + y + z == x + z + y
  {
  }

  lemma TakenMore(taken: seq<Option<Attached>>, i: nat, a: Attached)
    requires i < |taken| && taken[i] == None
    ensures Taken(taken[i := Some(a)]) == Taken(taken) + multiset{a}
  {
    TakenMoreUpTo(taken, i, a, |taken|);
  }

  lemma TakenFresh(taken: seq<Option<Attached>>)
    ensures Taken(taken + [None]) == Taken(taken)
  {
    TakenSame(taken, taken + [None], |taken|);
  }

  lemma {:induction false} InTaken(taken: seq<Option<Attached>>, a: Attached, n: nat) returns (i: nat)
    requires n <= |taken| && a in TakenUpTo(taken, n)
    ensures i < n && taken[i] == Some(a)
  {
    if taken[n - 1] == Some(a) {
      i := n - 1;
    } else {
      i := InTaken(taken, a, n - 1);
    }
  }

  /** A call is as recorded, or completed by the one result it has taken, which has its use
      id or none. */
  predicate CallOk(calls: seq<ToolCall>, born: seq<ToolCall>, taken: seq<Option<Attached>>, i: nat)
    requires i < |calls| == |born| == |taken|
  {
    && born[i].status == Pending
    && calls[i] == (if taken[i].Some? then Completed(born[i], taken[i].value) else born[i])
    && (taken[i].Some? ==> taken[i].value.result.useID in {"", born[i].useID})
  }

  predicate CallsOk(calls: seq<ToolCall>, born: seq<ToolCall>, taken: seq<Option<Attached>>) {
    |calls| == |born| == |taken| && forall i :: 0 <= i < |calls| ==> CallOk(calls, born, taken, i)
  }

  /** The index points at calls with that use id, and knows every use id. */
  predicate IndexOk(t: Tools) {
    && (forall id :: id in t.byUseID ==> id != "" && t.byUseID[id] < |t.calls| && t.calls[t.byUseID[id]].useID == id)
    && (forall i :: 0 <= i < |t.calls| && t.calls[i].useID != "" ==> t.calls[i].useID in t.byUseID)
  }

  /** How often a result occurs in a list. */
  function Count(results: seq<Attached>, x: Attached): nat {
    multiset(results)[x]
  }

  lemma CountAppend(a: seq<Attached>, b: seq<Attached>, x: Attached)
    ensures Count(a + b, x) == Count(a, x) + Count(b, x)
  {
  }

  predicate Balanced(t: Tools, log: Log, x: Attached) {
    Count(log.offered, x) == Taken(log.taken)[x] + Count(t.pending, x) + Count(log.unmatched, x)
  }

  /** Every result offered is taken by one call, still waiting, or reported. */
  ghost predicate Conserved(t: Tools, log: Log) {
    forall x :: Balanced(t, log, x)
  }

  /** Only a result without a use id, or for a use id no call has or some call has a
      result for already, is reported or kept waiting. */
  predicate Refused(log: Log, a: Attached)
    requires |log.born| == |log.taken|
  {
    || a.result.useID == ""
    || (exists i :: 0 <= i < |log.born| && log.born[i].useID == a.result.useID && log.taken[i].Some?)
    || (forall i :: 0 <= i < |log.born| ==> log.born[i].useID != a.result.useID)
  }

  /** What a turn in progress keeps. */
  ghost predicate Valid(t: Tools, log: Log) {
    && CallsOk(t.calls, log.born, log.taken)
    && IndexOk(t)
    && Conserved(t, log)
    && (forall a :: a in t.pending ==> a.result.useID != "")
    && (forall a :: a in log.unmatched ==>
         || a.result.useID == ""
         || (exists i :: 0 <= i < |log.born| && log.born[i].useID == a.result.useID && log.taken[i].Some?))
  }

  lemma CallStatus(t: Tools, log: Log, i: nat)
    requires CallsOk(t.calls, log.born, log.taken) && i < |t.calls|
    ensures t.calls[i].status == Pending <==> log.taken[i] == None
    ensures t.calls[i].useID == log.born[i].useID
  {
    assert CallOk(t.calls, log.born, log.taken, i);
  }

  /** Recording a tool_use (the tail of recordAssistantMessage). */
  function Recorded(t: Tools, call: ToolCall): Tools {
    Tools(t.calls + [call], if call.useID != "" then t.byUseID[call.useID := |t.calls|] else t.byUseID, t.pending)
  }

  function Logged(log: Log, call: ToolCall): Log {
    log.(born := log.born + [call], taken := log.taken + [None])
  }

  lemma RecordKeepsIndex(t: Tools, call: ToolCall)
    requires IndexOk(t)
    ensures IndexOk(Recorded(t, call))
  {
  }

  lemma RecordKeepsValid(t: Tools, log: Log, call: ToolCall)
    requires Valid(t, log) && call.status == Pending
    ensures Valid(Recorded(t, call), Logged(log, call))
  {
    var after := Logged(log, call);
    var u := Recorded(t, call);
    forall i | 0 <= i < |u.calls| ensures CallOk(u.calls, after.born, after.taken, i) {
      if i < |t.calls| {
        assert CallOk(t.calls, log.born, log.taken, i);
      }
    }
    RecordKeepsIndex(t, call);
    forall x ensures Balanced(u, after, x) {
      assert Balanced(t, log, x);
      TakenFresh(log.taken);
    }
    forall a | a in log.unmatched && a.result.useID != ""
      ensures exists i :: 0 <= i < |after.born| && after.born[i].useID == a.result.useID && after.taken[i].Some?
    {
      var i :| 0 <= i < |log.born| && log.born[i].useID == a.result.useID && log.taken[i].Some?;
      assert after.born[i].useID == a.result.useID && after.taken[i].Some?;
    }
  }

  function AppliedTo(t: Tools, index: nat, a: Attached): Tools
    requires index < |t.calls|
  {
    t.(calls := t.calls[index := Completed(t.calls[index], a)])
  }

  /** Applying a result to a pending call keeps everything but the count of results, which
      the caller owes (`extra` is where the result came from). */
  lemma ApplyKeepsValid(t: Tools, log: Log, index: nat, a: Attached)
    requires CallsOk(t.calls, log.born, log.taken) && IndexOk(t) && index < |t.calls| && t.calls[index].status == Pending
    requires a.result.useID in {"", t.calls[index].useID}
    ensures CallsOk(AppliedTo(t, index, a).calls, log.born, log.taken[index := Some(a)])
    ensures IndexOk(AppliedTo(t, index, a))
    ensures Taken(log.taken[index := Some(a)]) == Taken(log.taken) + multiset{a}
  {
    CallStatus(t, log, index);
    TakenMore(log.taken, index, a);
    var u, after := AppliedTo(t, index, a), log.(taken := log.taken[index := Some(a)]);
    forall i | 0 <= i < |u.calls| ensures CallOk(u.calls, after.born, after.taken, i) {
      assert CallOk(t.calls, log.born, log.taken, i);
    }
    assert AppliedTo(t, index, a).calls[index].useID == t.calls[index].useID;
  }

  lemma UnmatchedStay(log: Log, index: nat, a: Attached)
    requires |log.born| == |log.taken| && index < |log.taken|
    requires forall u :: u in log.unmatched ==>
      u.result.useID == "" ||
          (exists i :: 0 <= i < |log.born| && log.born[i].useID == u.result.useID && log.taken[i].Some?)
    ensures forall u :: u in log.unmatched ==>
      || u.result.useID == ""
      || (exists i ::
            0 <= i < |log.born| && log.born[i].useID == u.result.useID && log.taken[index := Some(a)][i].Some?)
  {
  }

  /** A result that finds its call is taken at once. */
  lemma OfferTaken(t: Tools, log: Log, index: nat, a: Attached)
    requires Valid(t, log) && index < |t.calls| && t.calls[index].status == Pending &&
        a.result.useID in {"", t.calls[index].useID}
    ensures Valid(AppliedTo(t, index, a), log.(taken := log.taken[index := Some(a)], offered := log.offered + [a]))
  {
    ApplyKeepsValid(t, log, index, a);
    UnmatchedStay(log, index, a);
    var u, after := AppliedTo(t, index, a), log.(taken := log.taken[index := Some(a)], offered := log.offered + [a]);
    forall x ensures Balanced(u, after, x) {
      assert Balanced(t, log, x);
      CountAppend(log.offered, [a], x);
    }
  }

  /** A result for a use id no call has yet waits. */
  lemma OfferKept(t: Tools, log: Log, a: Attached)
    requires Valid(t, log) && a.result.useID != ""
    ensures Valid(t.(pending := t.pending + [a]), log.(offered := log.offered + [a]))
  {
    var u, after := t.(pending := t.pending + [a]), log.(offered := log.offered + [a]);
    forall x ensures Balanced(u, after, x) {
      assert Balanced(t, log, x);
      CountAppend(log.offered, [a], x);
      CountAppend(t.pending, [a], x);
    }
  }

  /** Any other result is reported: it has no use id, or its call has a result. */
  lemma OfferRefused(t: Tools, log: Log, a: Attached)
    requires Valid(t, log)
    requires a.result.useID == "" ||
        (a.result.useID in t.byUseID && t.calls[t.byUseID[a.result.useID]].status != Pending)
    ensures Valid(t, log.(offered := log.offered + [a], unmatched := log.unmatched + [a]))
  {
    var after := log.(offered := log.offered + [a], unmatched := log.unmatched + [a]);
    forall x ensures Balanced(t, after, x) {
      assert Balanced(t, log, x);
      CountAppend(log.offered, [a], x);
      CountAppend(log.unmatched, [a], x);
    }
    if a.result.useID != "" {
      var i := t.byUseID[a.result.useID];
      CallStatus(t, log, i);
      assert log.born[i].useID == a.result.useID && log.taken[i].Some?;
    }
  }

  function Removed(pending: seq<Attached>, k: nat): seq<Attached>
    requires k < |pending|
  {
    pending[..k] + pending[k + 1..]
  }

  lemma RemovedOne(pending: seq<Attached>, k: nat)
    requires k < |pending|
    ensures multiset(pending) == multiset(Removed(pending, k)) + multiset{pending[k]}
    ensures forall a :: a in Removed(pending, k) ==> a in pending
  {
    assert pending == pending[..k] + [pending[k]] + pending[k + 1..];
  }

  /** A waiting result whose call has come is taken. */
  lemma PendingTaken(t: Tools, log: Log, k: nat, index: nat)
    requires Valid(t, log) && k < |t.pending| && index < |t.calls|
    requires t.calls[index].status == Pending && t.pending[k].result.useID == t.calls[index].useID
    ensures Valid(AppliedTo(t, index, t.pending[k]).(pending := Removed(t.pending, k)),
        log.(taken := log.taken[index := Some(t.pending[k])]))
  {
    RemovedOne(t.pending, k);
    ApplyKeepsValid(t, log, index, t.pending[k]);
    UnmatchedStay(log, index, t.pending[k]);
    var u := AppliedTo(t, index, t.pending[k]);
    var v, after := u.(pending := Removed(t.pending, k)), log.(taken := log.taken[index := Some(t.pending[k])]);
    forall x ensures Balanced(v, after, x) {
      assert Balanced(t, log, x);
    }
    assert v.calls == u.calls;
  }

  /** A result that finds no pending call now finds none later in the same pass. */
  lemma RefusedWhenUnresolved(t: Tools, log: Log, a: Attached)
    requires Valid(t, log)
    requires !(a.result.useID in t.byUseID && t.calls[t.byUseID[a.result.useID]].status == Pending)
    ensures Refused(log, a)
  {
    if a.result.useID in t.byUseID {
      var i := t.byUseID[a.result.useID];
      CallStatus(t, log, i);
      assert log.born[i].useID == a.result.useID && log.taken[i].Some?;
    } else {
      forall i | 0 <= i < |log.born| && a.result.useID != "" ensures log.born[i].useID != a.result.useID {
        CallStatus(t, log, i);
      }
    }
  }

  /** The first `n` waiting results could not be taken. */
  predicate AllRefused(log: Log, pending: seq<Attached>, n: nat)
    requires |log.born| == |log.taken| && n <= |pending|
  {
    forall i :: 0 <= i < n ==> Refused(log, pending[i])
  }

  lemma AllRefusedStay(log: Log, pending: seq<Attached>, n: nat, index: nat, a: Attached)
    requires |log.born| == |log.taken| && index < |log.taken| && n < |pending| && AllRefused(log, pending, n)
    ensures AllRefused(log.(taken := log.taken[index := Some(a)]), Removed(pending, n), n)
  {
  }

  /** In a turn without ambiguity every use id is there once and every result names one. */
  predicate Unambiguous(born: seq<ToolCall>, offered: seq<Attached>) {
    && (forall i :: 0 <= i < |born| ==> born[i].useID != "")
    && (forall i, j :: 0 <= i < j < |born| ==> born[i].useID != born[j].useID)
    && (forall i :: 0 <= i < |offered| ==> offered[i].result.useID != "")
    && (forall i, j :: 0 <= i < j < |offered| ==> offered[i].result.useID != offered[j].result.useID)
  }

  /** The final record of a call: completed by the result that names it, if any. */
  ghost predicate IsFinal(call: ToolCall, offered: multiset<Attached>, final: ToolCall) {
    if exists a :: a in offered && a.result.useID == call.useID
    then exists a :: a in offered && a.result.useID == call.useID && final == Completed(call, a)
    else final == call
  }

  /** A turn is over when no waiting result could be taken any more. */
  predicate Settled(t: Tools, log: Log)
    requires |log.born| == |log.taken|
  {
    forall a :: a in t.pending ==> Refused(log, a)
  }

  lemma OneResultPerID(offered: seq<Attached>, a: Attached, b: Attached)
    requires forall i, j :: 0 <= i < j < |offered| ==> offered[i].result.useID != offered[j].result.useID
    requires a in offered && b in offered && a.result.useID == b.result.useID
    ensures a == b
  {
  }

  /** The call that a result of a settled, unambiguous turn names has taken it. */
  lemma NamedResultIsTaken(t: Tools, log: Log, i: nat, a: Attached)
    requires Valid(t, log) && Settled(t, log) && Unambiguous(log.born, log.offered)
    requires i < |log.born| && a in log.offered && a.result.useID == log.born[i].useID
    ensures log.taken[i] == Some(a)
  {
    assert Balanced(t, log, a) && a in multiset(log.offered);
    var taker: nat;
    if a in Taken(log.taken) {
      taker := InTaken(log.taken, a, |log.taken|);
    } else {
      assert a in t.pending || a in log.unmatched;
      assert Refused(log, a);
      var k :| 0 <= k < |log.born| && log.born[k].useID == a.result.useID && log.taken[k].Some?;
      taker := k;
    }
    assert CallOk(t.calls, log.born, log.taken, taker);
    assert taker == i;
    var b := log.taken[i].value;
    TakenIsOffered(t, log, i);
    OneResultPerID(log.offered, a, b);
  }

  lemma TakenIsOffered(t: Tools, log: Log, i: nat)
    requires Conserved(t, log) && i < |log.taken| && log.taken[i].Some?
    ensures log.taken[i].value in log.offered
  {
    TakenIn(log.taken, i, |log.taken|);
    assert Balanced(t, log, log.taken[i].value);
    assert log.taken[i].value in multiset(log.offered);
  }

  lemma {:induction false} TakenIn(taken: seq<Option<Attached>>, i: nat, n: nat)
    requires i < n <= |taken| && taken[i].Some?
    ensures taken[i].value in TakenUpTo(taken, n)
  {
    if i < n - 1 {
      TakenIn(taken, i, n - 1);
    }
  }

  lemma TakenNamesTheCall(t: Tools, log: Log, i: nat)
    requires Valid(t, log) && Unambiguous(log.born, log.offered) && i < |log.taken| && log.taken[i].Some?
    ensures exists a :: a in multiset(log.offered) && a.result.useID == log.born[i].useID
  {
    TakenIsOffered(t, log, i);
    var a := log.taken[i].value;
    assert CallOk(t.calls, log.born, log.taken, i);
    assert a in multiset(log.offered) && a.result.useID == log.born[i].useID;
  }

  /** A settled, unambiguous turn's calls are final: a function of the recorded calls and
      the results offered, not of how the two came interleaved. */
  lemma SettledCallsAreFinal(t: Tools, log: Log, i: nat)
    requires Valid(t, log) && Settled(t, log) && Unambiguous(log.born, log.offered) && i < |t.calls|
    ensures IsFinal(log.born[i], multiset(log.offered), t.calls[i])
  {
    assert CallOk(t.calls, log.born, log.taken, i);
    if log.taken[i].Some? {
      TakenNamesTheCall(t, log, i);
    }
    if a :| a in multiset(log.offered) && a.result.useID == log.born[i].useID {
      NamedResultIsTaken(t, log, i, a);
    }
  }

  /** A call without its raw references, which name lines by their number. */
  function Unreferenced(call: ToolCall): ToolCall {
    call.(rawUse := 0, rawResult := if call.rawResult.Some? then Some(0) else None)
  }

  function AllUnreferenced(calls: seq<ToolCall>): (r: seq<ToolCall>)
    ensures |r| == |calls| && forall i :: 0 <= i < |r| ==> r[i] == Unreferenced(calls[i])
  {
    seq(|calls|, i requires 0 <= i < |calls| => Unreferenced(calls[i]))
  }

  /** Results without theirs. */
  function Bare(results: seq<Attached>): (r: seq<Attached>)
    ensures |r| == |results| && forall i :: 0 <= i < |r| ==> r[i] == results[i].(raw := 0)
  {
    seq(|results|, i requires 0 <= i < |results| => results[i].(raw := 0))
  }

  lemma BareFrom(offered: seq<Attached>, other: seq<Attached>, a: Attached) returns (b: Attached)
    requires multiset(Bare(offered)) == multiset(Bare(other)) && a in offered
    ensures b in other && b.(raw := 0) == a.(raw := 0)
  {
    var i :| 0 <= i < |offered| && offered[i] == a;
    assert Bare(offered)[i] in multiset(Bare(other));
    var j :| 0 <= j < |other| && Bare(other)[j] == Bare(offered)[i];
    b := other[j];
  }

  predicate OnePerID(offered: seq<Attached>) {
    forall i, j :: 0 <= i < j < |offered| ==> offered[i].result.useID != offered[j].result.useID
  }

  /** Up to raw references the final record of a call depends on the call and the results. */
  lemma FinalUpToReferences(call: ToolCall, offered: seq<Attached>, final: ToolCall, call': ToolCall,
      other: seq<Attached>, final': ToolCall)
    requires Unreferenced(call) == Unreferenced(call') && multiset(Bare(offered)) == multiset(Bare(other))
    requires OnePerID(offered) && OnePerID(other)
    requires IsFinal(call, multiset(offered), final) && IsFinal(call', multiset(other), final')
    ensures Unreferenced(final) == Unreferenced(final')
  {
    if a :| a in multiset(offered) && a.result.useID == call.useID && final == Completed(call, a) {
      var b := BareFrom(offered, other, a);
      assert b in multiset(other) && b.result.useID == call'.useID;
      var c :| c in multiset(other) && c.result.useID == call'.useID && final' == Completed(call', c);
      OneResultPerID(other, b, c);
    } else if c :| c in multiset(other) && c.result.useID == call'.useID {
      var b := BareFrom(other, offered, c);
      assert false;
    }
  }

  lemma {:induction false} TwoCount(s: seq<Attached>, i: nat, j: nat)
    requires i < j < |s| && s[i] == s[j]
    ensures multiset(s)[s[i]] >= 2
  {
    assert s == s[..j] + s[j..];
    assert s[..j][i] == s[i] && s[j..][0] == s[i];
    assert s[i] in multiset(s[..j]) && s[i] in multiset(s[j..]);
  }

  lemma {:induction false} OnceCounts(s: seq<Attached>, a: Attached)
    requires forall i, j :: 0 <= i < j < |s| ==> s[i] != s[j]
    ensures multiset(s)[a] <= 1
  {
    if s != [] {
      var front, last := s[..|s| - 1], s[|s| - 1];
      assert s == front + [last];
      OnceCounts(front, a);
      if a == last {
        assert a !in front;
      }
    }
  }

  /** Reordering results leaves one for each use id. */
  lemma OnePerIDInAnyOrder(offered: seq<Attached>, other: seq<Attached>)
    requires OnePerID(offered) && multiset(offered) == multiset(other)
    ensures OnePerID(other)
  {
    forall i | 0 <= i < |other| ensures other[i] in offered {
      assert other[i] in multiset(other);
    }
    forall i, j | 0 <= i < j < |other| ensures other[i].result.useID != other[j].result.useID {
      if other[i].result.useID == other[j].result.useID {
        assert other[i] in offered && other[j] in offered;
        OneResultPerID(offered, other[i], other[j]);
        TwoCount(other, i, j);
        OnceCounts(offered, other[i]);
      }
    }
  }

  lemma BareKeepsIDs(offered: seq<Attached>)
    ensures OnePerID(Bare(offered)) <==> OnePerID(offered)
  {
    forall i | 0 <= i < |offered| ensures Bare(offered)[i].result.useID == offered[i].result.useID { }
  }

  /** Reordering results, whatever becomes of their raw references, leaves a turn unambiguous. */
  lemma UnambiguousInAnyOrder(born: seq<ToolCall>, offered: seq<Attached>, born': seq<ToolCall>, other: seq<Attached>)
    requires Unambiguous(born, offered) && AllUnreferenced(born) == AllUnreferenced(born')
    requires multiset(Bare(offered)) == multiset(Bare(other))
    ensures Unambiguous(born', other)
  {
    BareKeepsIDs(offered);
    OnePerIDInAnyOrder(Bare(offered), Bare(other));
    BareKeepsIDs(other);
    forall i | 0 <= i < |born'| ensures i < |born| && born'[i].useID == born[i].useID {
      assert |AllUnreferenced(born)| == |AllUnreferenced(born')|;
      assert AllUnreferenced(born)[i] == AllUnreferenced(born')[i];
    }
    forall i | 0 <= i < |other| ensures other[i].result.useID != "" {
      var b := BareFrom(other, offered, other[i]);
    }
  }
}
