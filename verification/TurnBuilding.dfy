/** The Claude Code turn builder (parser/claudecode/parser.go, parser/shared/shared.go):
    one usage per message however its lines repeat, and one fate per tool_result. The
    reconciliation of background completions, which runs afterwards, is not part of it. */
module TurnBuilding {
  import opened Wrappers
  import opened ToolResults

  datatype Tokens = Tokens(input: int, output: int, cacheRead: int, cacheWrite: int, cacheWriteLong: int) {
    function Add(other: Tokens): Tokens {
      Tokens(input + other.input, output + other.output, cacheRead + other.cacheRead,
             cacheWrite + other.cacheWrite, cacheWriteLong + other.cacheWriteLong)
    }

    /** The long-lived tier is part of the total. */
    predicate Tiered() {
      cacheWriteLong <= cacheWrite
    }
  }

  datatype Field = Input | Output | CacheRead | CacheWrite | CacheWriteLong

  function Amount(t: Tokens, f: Field): int {
    match f
    case Input => t.input
    case Output => t.output
    case CacheRead => t.cacheRead
    case CacheWrite => t.cacheWrite
    case CacheWriteLong => t.cacheWriteLong
  }

  const ZERO := Tokens(0, 0, 0, 0, 0)

  datatype Usage = Usage(input: int, output: int, cacheRead: int, cacheCreation: int, ephemeral1h: int)

  datatype Message = Message(
    id: string,
    text: string,
    model: string,
    stopReason: string,
    usage: Usage,
    toolUses: seq<ToolUse>,
    toolResults: seq<ToolResult>)

  datatype Kind = User | Assistant | Other

  /** A transcript line, decoded. */
  datatype Event =
    | Malformed(raw: RawRef)
    | Line(kind: Kind, msg: Message, when: Time, isMeta: bool, raw: RawRef)

  datatype Invocation = Invocation(
    index: nat,
    model: string,
    startedAt: Time,
    endedAt: Time,
    stopReason: string,
    status: Status,
    tokens: Tokens,
    raw: RawRef)

  datatype Turn = Turn(
    index: nat,
    userMessage: string,
    assistantFinal: string,
    startedAt: Time,
    endedAt: Time,
    durationMs: nat,
    status: Status,
    invocationCount: nat,
    toolCallCount: nat,
    tokens: Tokens,
    invocations: seq<Invocation>,
    toolCalls: seq<ToolCall>)

  datatype ParseError = BadLine(raw: RawRef) | UnmatchedResult(result: Attached)

  /** Where a message id's invocation is: the turn, and its position in it. */
  datatype MsgRef = MsgRef(turnIndex: nat, invIndex: nat)

  /** The later of two times, an absent second one being no bound. */
  function LaterTime(a: Time, b: Time): (t: Time)
    ensures t in {a, b} && t >= a && t >= b
  {
    if b == 0 || a > b then a else b
  }

  /** What a usage bills in each field; of the long-lived cache writes no more than were
      written. */
  function Billed(u: Usage, f: Field): int {
    match f
    case Input => u.input
    case Output => u.output
    case CacheRead => u.cacheRead
    case CacheWrite => u.cacheCreation
    case CacheWriteLong => if u.ephemeral1h < u.cacheCreation then u.ephemeral1h else u.cacheCreation
  }

  function TokensOf(u: Usage): (t: Tokens)
    ensures forall f :: Amount(t, f) == Billed(u, f)
  {
    Tokens(u.input, u.output, u.cacheRead, u.cacheCreation, if u.ephemeral1h < u.cacheCreation then u.ephemeral1h
        else u.cacheCreation)
  }

  function InvocationStatus(stopReason: string): (status: Status)
    ensures status == Success <==> stopReason in {"end_turn", "stop_sequence", "tool_use"}
    ensures status == Interrupted <==> stopReason == "max_tokens"
    ensures status in {Success, Interrupted, Unknown}
  {
    match stopReason
    case "end_turn" => Success
    case "stop_sequence" => Success
    case "tool_use" => Success
    case "max_tokens" => Interrupted
    case _ => Unknown
  }

  /** StatusForTurn. */
  function StatusForTurn(calls: seq<ToolCall>, assistantFinal: string, invocations: seq<Invocation>): Status {
    if exists i :: 0 <= i < |calls| && calls[i].status == Failed then Failed
    else if assistantFinal != "" || |invocations| > 0 then Success
    else Unknown
  }

  /** What a turn's record says of its parts: their number, its duration, and how it went. */
  predicate Summed(turn: Turn) {
    && turn.invocationCount == |turn.invocations| && turn.toolCallCount == |turn.toolCalls|
    && turn.durationMs == (if turn.startedAt != 0 &&
        turn.endedAt > turn.startedAt then turn.endedAt - turn.startedAt else 0)
    && (turn.status == Failed <==> exists i :: 0 <= i < |turn.toolCalls| && turn.toolCalls[i].status == Failed)
    && (turn.status == Success <==>
         (turn.assistantFinal != "" || turn.invocations != []) && turn.status != Failed)
  }

  /** The tokens of the first `n` invocations, and of all. */
  function SumUpTo(invocations: seq<Invocation>, n: nat, f: Field): int
    requires n <= |invocations|
  {
    if n == 0 then 0 else SumUpTo(invocations, n - 1, f) + Amount(invocations[n - 1].tokens, f)
  }

  ghost predicate IsSum(tokens: Tokens, invocations: seq<Invocation>) {
    forall f :: Amount(tokens, f) == SumUpTo(invocations, |invocations|, f)
  }

  function SumTurns(turns: seq<Turn>, n: nat, f: Field): int
    requires n <= |turns|
  {
    if n == 0 then 0 else SumTurns(turns, n - 1, f) + Amount(turns[n - 1].tokens, f)
  }

  predicate AllTiered(invocations: seq<Invocation>) {
    forall i :: 0 <= i < |invocations| ==> invocations[i].tokens.Tiered()
  }

  lemma {:induction false} SumSame(invocations: seq<Invocation>, others: seq<Invocation>, n: nat, f: Field)
    requires n <= |invocations| && n <= |others|
    requires forall i :: 0 <= i < n ==> invocations[i].tokens == others[i].tokens
    ensures SumUpTo(invocations, n, f) == SumUpTo(others, n, f)
  {
    if n > 0 {
      SumSame(invocations, others, n - 1, f);
    }
  }

  lemma SumSnoc(tokens: Tokens, invocations: seq<Invocation>, inv: Invocation, after: Tokens)
    requires IsSum(tokens, invocations) && forall f :: Amount(after, f) == Amount(tokens, f) + Amount(inv.tokens, f)
    ensures IsSum(after, invocations + [inv])
  {
    forall f ensures Amount(after, f) == SumUpTo(invocations + [inv], |invocations| + 1, f) {
      SumSame(invocations, invocations + [inv], |invocations|, f);
    }
  }

  lemma SumKeepsTokens(tokens: Tokens, invocations: seq<Invocation>, i: nat, inv: Invocation)
    requires IsSum(tokens, invocations) && i < |invocations| && inv.tokens == invocations[i].tokens
    ensures IsSum(tokens, invocations[i := inv])
  {
    forall f ensures Amount(tokens, f) == SumUpTo(invocations[i := inv], |invocations|, f) {
      SumSame(invocations, invocations[i := inv], |invocations|, f);
    }
  }

  lemma {:induction false} SumIsTiered(invocations: seq<Invocation>, n: nat)
    requires n <= |invocations| && AllTiered(invocations)
    ensures SumUpTo(invocations, n, CacheWriteLong) <= SumUpTo(invocations, n, CacheWrite)
  {
    if n > 0 {
      SumIsTiered(invocations, n - 1);
    }
  }

  function IdOf(e: Event): set<string> {
    if e.Line? && e.kind == Assistant && e.msg.id != "" then {e.msg.id} else {}
  }

  /** The message ids of the assistant lines among the first `n`. */
  function Ids(events: seq<Event>, n: nat): set<string>
    requires n <= |events|
  {
    if n == 0 then {} else Ids(events, n - 1) + IdOf(events[n - 1])
  }

  /** Whether a line brings usage: the first of its message id, or one without an id. */
  predicate Counts(before: set<string>, e: Event) {
    e.Line? && e.kind == Assistant && e.msg.id !in before
  }

  /** What a line adds, given the message ids before it. */
  function UsageOf(before: set<string>, e: Event, f: Field): int {
    if Counts(before, e) then Billed(e.msg.usage, f) else 0
  }

  /** The tokens of the first `n` lines: the usage of every one that counts. */
  function Counted(events: seq<Event>, n: nat, f: Field): int
    requires n <= |events|
  {
    if n == 0 then 0 else Counted(events, n - 1, f) + UsageOf(Ids(events, n - 1), events[n - 1], f)
  }

  /** The first `n` results of a line. */
  function OfferedBy(results: seq<ToolResult>, n: nat, when: Time, raw: RawRef): seq<Attached>
    requires n <= |results|
  {
    if n == 0 then [] else OfferedBy(results, n - 1, when, raw) + [Attached(results[n - 1], when, raw)]
  }

  lemma OfferedOnce(before: seq<Attached>, results: seq<ToolResult>, n: nat, when: Time, raw: RawRef)
    requires n < |results|
    ensures before + OfferedBy(results, n + 1, when, raw)
        == before + OfferedBy(results, n, when, raw) + [Attached(results[n], when, raw)]
  {
  }

  /** The tool_results a line offers. */
  function ResultsIn(e: Event): seq<Attached> {
    if e.Line? && e.kind == User then OfferedBy(e.msg.toolResults, |e.msg.toolResults|, e.when, e.raw) else []
  }

  lemma {:induction false} CountedSame(events: seq<Event>, others: seq<Event>, n: nat, f: Field)
    requires n <= |events| && n <= |others| && forall i :: 0 <= i < n ==> events[i] == others[i]
    ensures Ids(events, n) == Ids(others, n) && Counted(events, n, f) == Counted(others, n, f)
  {
    if n > 0 {
      CountedSame(events, others, n - 1, f);
    }
  }

  /** However often and wherever a message's line is repeated, before or after a turn
      boundary, the tokens stay the same. */
  lemma {:induction false} RepeatsAreFree(a: seq<Event>, e: Event, b: seq<Event>, n: nat, f: Field)
    requires !Counts(Ids(a, |a|), e) && n <= |b|
    ensures Ids(a + [e] + b, |a| + 1 + n) == Ids(a + b, |a| + n)
    ensures Counted(a + [e] + b, |a| + 1 + n, f) == Counted(a + b, |a| + n, f)
  {
    if n == 0 {
      CountedSame(a + [e] + b, a, |a|, f);
      CountedSame(a + b, a, |a|, f);
      assert (a + [e] + b)[|a|] == e;
    } else {
      RepeatsAreFree(a, e, b, n - 1, f);
      assert (a + [e] + b)[|a| + n] == b[n - 1] == (a + b)[|a| + n - 1];
    }
  }

  /** The map of message ids shared by the turns of a session. */
  class SeenMessages {
    var refs: map<string, MsgRef>

    constructor ()
      ensures refs == map[]
    {
      refs := map[];
    }
  }

  /** An entry for turn `index` points at the invocation with its message id, in `ids`; any
      other is for an earlier turn. */
  predicate EntryOk(refs: map<string, MsgRef>, index: nat, ids: seq<string>, id: string) {
    id in refs ==>
      && id != "" && refs[id].turnIndex <= index
      && (refs[id].turnIndex == index ==> refs[id].invIndex < |ids| && ids[refs[id].invIndex] == id)
  }

  /** An invocation with a message id has its entry. */
  predicate HasEntry(refs: map<string, MsgRef>, index: nat, ids: seq<string>, i: nat)
    requires i < |ids|
  {
    ids[i] != "" ==> ids[i] in refs && refs[ids[i]] == MsgRef(index, i)
  }

  ghost predicate RefsOk(refs: map<string, MsgRef>, index: nat, ids: seq<string>) {
    && (forall id :: EntryOk(refs, index, ids, id))
    && (forall i :: 0 <= i < |ids| ==> HasEntry(refs, index, ids, i))
  }

  /** Whether a line with message id `id` continues an invocation of a turn. */
  predicate Continues(ids: seq<string>, id: string) {
    id != "" && id in ids
  }

  /** The message ids of a turn's invocations after such a line. */
  function Opens(ids: seq<string>, id: string): seq<string> {
    if Continues(ids, id) then ids else ids + [id]
  }

  function IndexOf(ids: seq<string>, id: string): (i: nat)
    requires id in ids
    ensures i < |ids| && ids[i] == id && id !in ids[..i]
  {
    if ids[0] == id then 0 else IndexOf(ids[1..], id) + 1
  }

  /** The position of the invocation such a line goes to. */
  function Place(ids: seq<string>, id: string): nat {
    if Continues(ids, id) then IndexOf(ids, id) else |ids|
  }

  /** An invocation is opened for a message id without an entry for this turn. */
  lemma RefsGrow(refs: map<string, MsgRef>, index: nat, ids: seq<string>, id: string)
    requires RefsOk(refs, index, ids) && !(id in refs && refs[id].turnIndex == index)
    ensures RefsOk(if id == "" then refs else refs[id := MsgRef(index, |ids|)], index, ids + [id])
    ensures !Continues(ids, id)
  {
    var after, grown := if id == "" then refs else refs[id := MsgRef(index, |ids|)], ids + [id];
    forall x ensures EntryOk(after, index, grown, x) {
      assert EntryOk(refs, index, ids, x);
    }
    forall i | 0 <= i < |ids| ensures ids[i] == "" || ids[i] != id {
      assert HasEntry(refs, index, ids, i);
    }
    forall i | 0 <= i < |grown| ensures HasEntry(after, index, grown, i) {
      if i < |ids| {
        assert HasEntry(refs, index, ids, i);
      }
    }
  }

  /** A line with an entry for this turn continues the invocation it points at. */
  lemma EntryIsPlace(refs: map<string, MsgRef>, index: nat, ids: seq<string>, id: string)
    requires RefsOk(refs, index, ids) && id in refs && refs[id].turnIndex == index
    ensures Continues(ids, id) && Place(ids, id) == refs[id].invIndex && refs[id := MsgRef(index, Place(ids, id))] == refs
  {
    assert EntryOk(refs, index, ids, id);
    assert HasEntry(refs, index, ids, IndexOf(ids, id));
  }

  /** In the next turn all entries are for earlier ones. */
  lemma RefsPass(refs: map<string, MsgRef>, index: nat, ids: seq<string>)
    requires RefsOk(refs, index, ids)
    ensures RefsOk(refs, index + 1, [])
  {
    var next, none := index + 1, [];
    forall id ensures EntryOk(refs, next, none, id) {
      assert EntryOk(refs, index, ids, id);
    }
  }

  /** The invocations of a turn after a line with message `msg`, of which `known` says whether
      it has been seen before. */
  function InvocationsAfter(invocations: seq<Invocation>, ids: seq<string>, msg: Message, when: Time, raw: RawRef,
      known: bool): seq<Invocation>
    requires |ids| == |invocations|
  {
    if Continues(ids, msg.id) then
      var at := Place(ids, msg.id);
      invocations[at := invocations[at].(endedAt := LaterTime(invocations[at].endedAt, when))]
    else
      invocations + [Invocation(|invocations| + 1, msg.model, when, when, msg.stopReason,
          InvocationStatus(msg.stopReason), if known then ZERO else TokensOf(msg.usage), raw)]
  }

  function FreshCall(use: ToolUse, callIndex: nat, invocation: nat, when: Time, raw: RawRef): ToolCall {
    ToolCall(callIndex, invocation, use.name, use.useID, use.input, Pending, when, raw, "", 0, 0, 0, None)
  }

  /** A turn's calls followed by those of the first `n` tool uses of a line. */
  function Extended(calls: seq<ToolCall>, uses: seq<ToolUse>, n: nat, invocation: nat, when: Time, raw: RawRef):
    seq<ToolCall>
    requires n <= |uses|
  {
    if n == 0 then calls
    else
      var before := Extended(calls, uses, n - 1, invocation, when, raw);
      before + [FreshCall(uses[n - 1], |before| + 1, invocation, when, raw)]
  }

  /** The turn's history once the first `n` tool uses of a line are recorded, each with no
      result yet. */
  function LoggedAll(log: Log, uses: seq<ToolUse>, n: nat, invocation: nat, when: Time, raw: RawRef): (r: Log)
    requires n <= |uses|
    ensures r.born == Extended(log.born, uses, n, invocation, when, raw)
    ensures r.offered == log.offered && r.unmatched == log.unmatched
  {
    if n == 0 then log
    else
      var before := LoggedAll(log, uses, n - 1, invocation, when, raw);
      Logged(before, FreshCall(uses[n - 1], |before.born| + 1, invocation, when, raw))
  }

  class TurnBuilder {
    const index: nat
    const userMessage: string
    const startedAt: Time
    const seen: SeenMessages
    var endedAt: Time
    var assistantFinal: string
    var tokens: Tokens
    var invocations: seq<Invocation>
    var tools: Tools
    ghost var log: Log
    /** The message ids of the invocations, "" for one without. */
    ghost var ids: seq<string>

    /** The turn's tokens are its invocations', and every entry for this turn points at the
        one with its message id. */
    ghost predicate Accounted()
      reads `invocations, `tokens, `ids, seen
    {
      && RefsOk(seen.refs, index, ids) && |ids| == |invocations|
      && IsSum(tokens, invocations)
      && AllTiered(invocations)
    }

    /** And every tool_result is accounted for. */
    ghost predicate Valid()
      reads this, seen
    {
      Accounted() && ToolResults.Valid(tools, log)
    }

    constructor (index: nat, userText: string, when: Time, seen: SeenMessages)
      requires RefsOk(seen.refs, index, [])
      ensures Valid() && this.seen == seen && this.index == index && userMessage == userText
      ensures startedAt == endedAt == when && assistantFinal == "" && ids == []
      ensures (forall f :: Amount(tokens, f) == 0) && log == Log([], [], [], [])
    {
      this.index := index;
      this.userMessage := userText;
      this.startedAt := when;
      this.seen := seen;
      endedAt := when;
      assistantFinal := "";
      tokens := ZERO;
      invocations := [];
      tools := Tools([], map[], []);
      log := Log([], [], [], []);
      ids := [];
    }

    /** The invocation part of recordAssistantMessage: a line of a message seen in this turn
        continues its invocation; any other opens one, with the message's usage unless an
        earlier turn has had it. */
    method RecordInvocation(msg: Message, when: Time, raw: RawRef) returns (at: nat)
      requires Accounted()
      modifies `invocations, `tokens, `ids, seen
      ensures Accounted() && at < |invocations|
      ensures at == Place(old(ids), msg.id) && ids == Opens(old(ids), msg.id)
      ensures tokens == if msg.id in old(seen.refs) then old(tokens) else old(tokens).Add(TokensOf(msg.usage))
      ensures seen.refs == if msg.id == "" then old(seen.refs) else old(seen.refs)[msg.id := MsgRef(index, at)]
      ensures seen.refs.Keys == old(seen.refs.Keys) + if msg.id == "" then {} else {msg.id}
      ensures Continues(old(ids), msg.id) ==>
        var inv := old(invocations)[at];
        invocations == old(invocations)[at := inv.(endedAt := LaterTime(inv.endedAt, when))]
      ensures !Continues(old(ids), msg.id) ==>
          invocations[..at] == old(invocations) && |invocations| == at + 1
      ensures !Continues(old(ids), msg.id) ==>
        invocations[at] == Invocation(at + 1, msg.model, when, when, msg.stopReason, InvocationStatus(msg.stopReason),
                                      if msg.id in old(seen.refs) then ZERO else TokensOf(msg.usage), raw)
      ensures invocations == InvocationsAfter(old(invocations), old(ids), msg, when, raw, msg.id in old(seen.refs))
    {
      if msg.id in seen.refs && seen.refs[msg.id].turnIndex == index {
        at := seen.refs[msg.id].invIndex;
        EntryIsPlace(seen.refs, index, ids, msg.id);
        SumKeepsTokens(tokens, invocations, at, invocations[at].(endedAt := LaterTime(invocations[at].endedAt, when)));
        invocations := invocations[at := invocations[at].(endedAt := LaterTime(invocations[at].endedAt, when))];
        return;
      }
      at := |invocations|;
      ghost var before := tokens;
      var used := ZERO;
      if msg.id !in seen.refs {
        used := TokensOf(msg.usage);
        tokens := tokens.Add(used);
      }
      var inv := Invocation(at + 1, msg.model, when, when, msg.stopReason, InvocationStatus(msg.stopReason), used, raw);
      SumSnoc(before, invocations, inv, tokens);
      invocations := invocations + [inv];
      RefsGrow(seen.refs, index, ids, msg.id);
      if msg.id != "" {
        seen.refs := seen.refs[msg.id := MsgRef(index, at)];
      }
      ids := ids + [msg.id];
    }

    /** One turn of the loop over a line's tool_uses. */
    method RecordToolUse(use: ToolUse, invocation: nat, when: Time, raw: RawRef)
      requires ToolResults.Valid(tools, log)
      modifies `tools, `log
      ensures ToolResults.Valid(tools, log) && tools.pending == old(tools.pending)
      ensures log == Logged(old(log), FreshCall(use, |old(log.born)| + 1, invocation, when, raw))
    {
      var call := FreshCall(use, |tools.calls| + 1, invocation, when, raw);
      RecordKeepsValid(tools, log, call);
      tools := Recorded(tools, call);
      log := Logged(log, call);
    }

    /** The tool part of recordAssistantMessage. */
    method RecordToolUses(uses: seq<ToolUse>, invocation: nat, when: Time, raw: RawRef)
      requires ToolResults.Valid(tools, log)
      modifies `tools, `log
      ensures ToolResults.Valid(tools, log) && tools.pending == old(tools.pending)
      ensures log == LoggedAll(old(log), uses, |uses|, invocation, when, raw)
    {
      var i := 0;
      while i < |uses|
        invariant i <= |uses| && ToolResults.Valid(tools, log) && tools.pending == old(tools.pending)
        invariant log == LoggedAll(old(log), uses, i, invocation, when, raw)
      {
        RecordToolUse(uses[i], invocation, when, raw);
        i := i + 1;
      }
    }

    method NoteMessage(msg: Message, when: Time)
      modifies `endedAt, `assistantFinal
      ensures endedAt == LaterTime(old(endedAt), when) &&
          assistantFinal == if msg.text != "" then msg.text else old(assistantFinal)
    {
      endedAt := LaterTime(endedAt, when);
      if msg.text != "" {
        assistantFinal := msg.text;
      }
    }

    /** recordAssistantMessage but for the turn's end and closing text. */
    method RecordContent(msg: Message, when: Time, raw: RawRef) returns (at: nat)
      requires Valid()
      modifies `invocations, `tokens, `ids, `tools, `log, seen
      ensures Valid()
      ensures tokens == if msg.id in old(seen.refs) then old(tokens) else old(tokens).Add(TokensOf(msg.usage))
      ensures seen.refs.Keys == old(seen.refs.Keys) + if msg.id == "" then {} else {msg.id}
      ensures at == Place(old(ids), msg.id) && ids == Opens(old(ids), msg.id)
      ensures invocations == InvocationsAfter(old(invocations), old(ids), msg, when, raw, msg.id in old(seen.refs))
      ensures log == LoggedAll(old(log), msg.toolUses, |msg.toolUses|, at + 1, when, raw)
      ensures tools.pending == old(tools.pending)
    {
      at := RecordInvocation(msg, when, raw);
      RecordToolUses(msg.toolUses, at + 1, when, raw);
    }

    /** recordAssistantMessage; `at` is the position of the invocation the line goes to. */
    method RecordAssistantMessage(msg: Message, when: Time, raw: RawRef) returns (at: nat)
      requires Valid()
      modifies this, seen
      ensures Valid()
      ensures tokens == if msg.id in old(seen.refs) then old(tokens) else old(tokens).Add(TokensOf(msg.usage))
      ensures seen.refs.Keys == old(seen.refs.Keys) + if msg.id == "" then {} else {msg.id}
      ensures at == Place(old(ids), msg.id) && ids == Opens(old(ids), msg.id)
      ensures invocations == InvocationsAfter(old(invocations), old(ids), msg, when, raw, msg.id in old(seen.refs))
      ensures log == LoggedAll(old(log), msg.toolUses, |msg.toolUses|, at + 1, when, raw)
      ensures tools.pending == old(tools.pending)
      ensures endedAt == LaterTime(old(endedAt), when) &&
          assistantFinal == if msg.text != "" then msg.text else old(assistantFinal)
    {
      NoteMessage(msg, when);
      at := RecordContent(msg, when, raw);
    }

    /** resolveToolCall: the pending call a result completes, or -1. With a use id that is
        the call indexed under it and no other; without one, the first pending call. */
    method ResolveToolCall(useID: string) returns (index: int)
      requires IndexOk(tools)
      ensures index == -1 || (0 <= index < |tools.calls| && tools.calls[index].status == Pending)
      ensures useID != "" && index >= 0 ==> tools.calls[index].useID == useID
      ensures useID != "" ==>
          (index >= 0 <==> useID in tools.byUseID && tools.calls[tools.byUseID[useID]].status == Pending)
      ensures useID == "" ==> forall i :: 0 <= i < (if index < 0 then |tools.calls| else index) ==>
          tools.calls[i].status != Pending
    {
      if useID != "" {
        if useID in tools.byUseID && tools.calls[tools.byUseID[useID]].status == Pending {
          return tools.byUseID[useID];
        }
        return -1;
      }
      var i := 0;
      while i < |tools.calls|
        invariant i <= |tools.calls|
        invariant forall j :: 0 <= j < i ==> tools.calls[j].status != Pending
      {
        if tools.calls[i].status == Pending {
          return i;
        }
        i := i + 1;
      }
      return -1;
    }

    /** One turn of the loop of attachToolResults. */
    method AttachOne(a: Attached) returns (refused: bool)
      requires ToolResults.Valid(tools, log)
      modifies `tools, `log
      ensures ToolResults.Valid(tools, log)
      ensures log.born == old(log.born) && log.offered == old(log.offered) + [a]
      ensures log.unmatched == old(log.unmatched) + if refused then [a] else []
    {
      var index := ResolveToolCall(a.result.useID);
      if index >= 0 {
        OfferTaken(tools, log, index, a);
        tools := AppliedTo(tools, index, a);
        log := log.(taken := log.taken[index := Some(a)], offered := log.offered + [a]);
        return false;
      }
      if a.result.useID != "" && a.result.useID !in tools.byUseID {
        OfferKept(tools, log, a);
        tools := tools.(pending := tools.pending + [a]);
        log := log.(offered := log.offered + [a]);
        return false;
      }
      OfferRefused(tools, log, a);
      log := log.(offered := log.offered + [a], unmatched := log.unmatched + [a]);
      return true;
    }

    /** attachToolResults: every result of the line is taken, kept or reported. */
    method AttachToolResults(results: seq<ToolResult>, when: Time, raw: RawRef) returns (errors: seq<Attached>)
      requires Valid()
      modifies `endedAt, `tools, `log
      ensures Valid()
      ensures log.born == old(log.born) && log.offered == old(log.offered) + OfferedBy(results, |results|, when, raw)
      ensures log.unmatched == old(log.unmatched) + errors && endedAt == LaterTime(old(endedAt), when)
    {
      endedAt := LaterTime(endedAt, when);
      errors := AttachAll(results, when, raw);
    }

    /** The loop of attachToolResults. */
    method AttachAll(results: seq<ToolResult>, when: Time, raw: RawRef) returns (errors: seq<Attached>)
      requires ToolResults.Valid(tools, log)
      modifies `tools, `log
      ensures ToolResults.Valid(tools, log)
      ensures log.born == old(log.born) && log.offered == old(log.offered) + OfferedBy(results, |results|, when, raw)
      ensures log.unmatched == old(log.unmatched) + errors
    {
      errors := [];
      var i := 0;
      while i < |results|
        invariant i <= |results| && ToolResults.Valid(tools, log)
        invariant log.born == old(log.born) && log.offered == old(log.offered) + OfferedBy(results, i, when, raw)
        invariant log.unmatched == old(log.unmatched) + errors
      {
        OfferedOnce(old(log.offered), results, i, when, raw);
        var refused := AttachOne(Attached(results[i], when, raw));
        if refused {
          errors := errors + [Attached(results[i], when, raw)];
        }
        i := i + 1;
      }
    }

    /** One turn of the loop of resolvePendingResults, over the result after the `kept`
        kept so far. */
    method ResolveOne(kept: nat) returns (found: bool)
      requires ToolResults.Valid(tools, log) && kept < |tools.pending| && AllRefused(log, tools.pending, kept)
      modifies `tools, `log
      ensures ToolResults.Valid(tools, log)
      ensures log.born == old(log.born) && log.offered == old(log.offered) && log.unmatched == old(log.unmatched)
      ensures found ==> |tools.pending| == |old(tools.pending)| - 1 && AllRefused(log, tools.pending, kept)
      ensures !found ==> tools == old(tools) && AllRefused(log, tools.pending, kept + 1)
    {
      var a := tools.pending[kept];
      var index := ResolveToolCall(a.result.useID);
      found := index >= 0;
      if found {
        PendingTaken(tools, log, kept, index);
        AllRefusedStay(log, tools.pending, kept, index, a);
        tools := AppliedTo(tools, index, a).(pending := Removed(tools.pending, kept));
        log := log.(taken := log.taken[index := Some(a)]);
      } else {
        RefusedWhenUnresolved(tools, log, a);
      }
    }

    /** resolvePendingResults: a waiting result whose call has come is taken; the rest could
        not be taken by any call. */
    method ResolvePendingResults()
      requires ToolResults.Valid(tools, log)
      modifies `tools, `log
      ensures ToolResults.Valid(tools, log) && Settled(tools, log)
      ensures log.born == old(log.born) && log.offered == old(log.offered) && log.unmatched == old(log.unmatched)
    {
      var kept := 0;
      while kept < |tools.pending|
        invariant kept <= |tools.pending| && ToolResults.Valid(tools, log)
        invariant AllRefused(log, tools.pending, kept)
        invariant log.born == old(log.born) && log.offered == old(log.offered) && log.unmatched == old(log.unmatched)
        decreases |tools.pending| - kept
      {
        var found := ResolveOne(kept);
        if !found {
          kept := kept + 1;
        }
      }
    }

    /** finish: the turn's record, and the results that found no call. */
    method Finish() returns (turn: Turn, errors: seq<Attached>)
      requires Valid()
      modifies `tools, `log
      ensures Valid() && Settled(tools, log)
      ensures log.born == old(log.born) && log.offered == old(log.offered) && log.unmatched == old(log.unmatched)
      ensures errors == tools.pending && turn.toolCalls == tools.calls
      ensures turn.tokens == tokens && IsSum(tokens, turn.invocations) && tokens.Tiered() && AllTiered(turn.invocations)
      ensures turn.index == index && turn.userMessage == userMessage && Summed(turn)
      ensures turn.invocations == invocations && turn.assistantFinal == assistantFinal &&
          turn.startedAt == startedAt && turn.endedAt == endedAt
    {
      ResolvePendingResults();
      errors := tools.pending;
      SumIsTiered(invocations, |invocations|);
      assert Amount(tokens, CacheWriteLong) <= Amount(tokens, CacheWrite);
      var duration := if startedAt != 0 && endedAt != 0 && endedAt > startedAt then endedAt - startedAt else 0;
      turn := Turn(index, userMessage, assistantFinal, startedAt, endedAt, duration,
                   StatusForTurn(tools.calls, assistantFinal, invocations),
                   |invocations|, |tools.calls|, tokens, invocations, tools.calls);
    }
  }
}
