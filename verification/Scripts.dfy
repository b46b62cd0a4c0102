/** What a transcript says of each of its turns, read off its lines alone: which lines go
    to which turn, and the tool calls, tool_results, texts, times and usage these hold
    (parser/claudecode/parser.go:83-150). */
module Scripts {
  import opened ToolResults
  import opened TurnBuilding

  /** The lines of a turn, the latest outermost: its assistant lines and the user lines
      with tool_results. */
  datatype Lines = NoLines | Then(front: Lines, line: Event)

  /** A turn: its user message, when it was opened, the message ids known by then, and its
      lines. */
  datatype Script = Script(message: string, start: Time, known: set<string>, lines: Lines)

  predicate IsAssistant(e: Event) {
    e.Line? && e.kind == Assistant
  }

  /** The message ids of the invocations the lines open, "" for one without. */
  function Messages(l: Lines): seq<string> {
    match l
    case NoLines => []
    case Then(front, e) => if IsAssistant(e) then Opens(Messages(front), e.msg.id) else Messages(front)
  }

  /** The tool calls the lines record: one per tool_use, in order, each with the invocation
      of its line's message. */
  function CallsOf(l: Lines): seq<ToolCall> {
    match l
    case NoLines => []
    case Then(front, e) =>
      if IsAssistant(e) then
        Extended(CallsOf(front), e.msg.toolUses, |e.msg.toolUses|, Place(Messages(front), e.msg.id) + 1, e.when, e.raw)
      else CallsOf(front)
  }

  /** A tool_use with the invocation it belongs to and the line it came from. */
  datatype Use = Use(use: ToolUse, invocation: nat, when: Time, raw: RawRef)

  function UsesIn(e: Event, invocation: nat): seq<Use>
    requires e.Line?
  {
    seq(|e.msg.toolUses|, i requires 0 <= i < |e.msg.toolUses| => Use(e.msg.toolUses[i], invocation, e.when, e.raw))
  }

  /** The tool_uses of the lines, in order. */
  function UsesOf(l: Lines): seq<Use> {
    match l
    case NoLines => []
    case Then(front, e) =>
      if IsAssistant(e) then UsesOf(front) + UsesIn(e, Place(Messages(front), e.msg.id) + 1) else UsesOf(front)
  }

  /** A call is the record of the `index`-th tool_use. */
  predicate Describes(call: ToolCall, u: Use, index: nat) {
    && call.name == u.use.name && call.useID == u.use.useID && call.input == u.use.input
    && call.callIndex == index + 1 && call.invocation == u.invocation
    && call.startedAt == u.when && call.rawUse == u.raw
  }

  /** One call per tool_use, in order, none with a result yet. */
  ghost predicate Fresh(calls: seq<ToolCall>, uses: seq<Use>) {
    |calls| == |uses| && forall c :: 0 <= c < |calls| ==> Describes(calls[c], uses[c], c) && Unanswered(calls[c])
  }

  lemma {:induction false} ExtendedIsFresh(calls: seq<ToolCall>, uses: seq<Use>, e: Event, n: nat, invocation: nat)
    requires Fresh(calls, uses) && e.Line? && n <= |e.msg.toolUses|
    ensures Fresh(Extended(calls, e.msg.toolUses, n, invocation, e.when, e.raw), uses + UsesIn(e, invocation)[..n])
  {
    if n == 0 {
      assert uses + UsesIn(e, invocation)[..0] == uses;
    } else {
      ExtendedIsFresh(calls, uses, e, n - 1, invocation);
    }
  }

  lemma {:induction false} CallsAreFresh(l: Lines)
    ensures Fresh(CallsOf(l), UsesOf(l))
  {
    if l.Then? {
      var e := l.line;
      CallsAreFresh(l.front);
      if IsAssistant(e) {
        var invocation := Place(Messages(l.front), e.msg.id) + 1;
        ExtendedIsFresh(CallsOf(l.front), UsesOf(l.front), e, |e.msg.toolUses|, invocation);
        assert UsesIn(e, invocation)[..|e.msg.toolUses|] == UsesIn(e, invocation);
      }
    }
  }

  /** The invocations the lines make, given the message ids before them. */
  function InvocationsOf(known: set<string>, l: Lines): (r: seq<Invocation>)
    ensures |r| == |Messages(l)|
  {
    match l
    case NoLines => []
    case Then(front, e) =>
      if IsAssistant(e) then
        InvocationsAfter(InvocationsOf(known, front), Messages(front), e.msg, e.when, e.raw,
          e.msg.id in known || e.msg.id in IdsIn(front))
      else InvocationsOf(known, front)
  }

  /** The tool_results the lines bring, in order. */
  function ResultsOf(l: Lines): seq<Attached> {
    match l
    case NoLines => []
    case Then(front, e) => ResultsOf(front) + ResultsIn(e)
  }

  function IdsIn(l: Lines): set<string> {
    match l
    case NoLines => {}
    case Then(front, e) => IdsIn(front) + IdOf(e)
  }

  predicate IsKnown(s: Script, id: string) {
    id in s.known || id in IdsIn(s.lines)
  }

  predicate KnowsAlike(s: Script, ids: set<string>, id: string) {
    IsKnown(s, id) <==> id in ids
  }

  /** The message ids known to a turn. */
  ghost predicate Knows(s: Script, ids: set<string>) {
    forall id :: KnowsAlike(s, ids, id)
  }

  lemma KnowsMore(s: Script, e: Event, ids: set<string>)
    requires Knows(s, ids)
    ensures Knows(s.(lines := Then(s.lines, e)), ids + IdOf(e))
    ensures e.Line? ==> (IsKnown(s, e.msg.id) <==> e.msg.id in ids)
  {
    var after, more := s.(lines := Then(s.lines, e)), ids + IdOf(e);
    forall id ensures KnowsAlike(after, more, id) {
      assert KnowsAlike(s, ids, id);
    }
    assert e.Line? ==> KnowsAlike(s, ids, e.msg.id);
  }

  /** The usage the lines bring, given the message ids before them. */
  function UsageIn(known: set<string>, l: Lines, f: Field): int {
    match l
    case NoLines => 0
    case Then(front, e) => UsageIn(known, front, f) + UsageOf(known + IdsIn(front), e, f)
  }

  function EndOf(start: Time, l: Lines): Time {
    match l
    case NoLines => start
    case Then(front, e) => if e.Line? then LaterTime(EndOf(start, front), e.when) else EndOf(start, front)
  }

  /** The last text of an assistant line. */
  function FinalText(l: Lines): string {
    match l
    case NoLines => ""
    case Then(front, e) => if IsAssistant(e) && e.msg.text != "" then e.msg.text else FinalText(front)
  }

  /** Tests on a user line's text: a background task's notification, and the sentinels
      that are not prompts. */
  datatype Sentinels = Sentinels(notification: string -> bool, injected: string -> bool)

  /** The user message of the turn a user line opens, if it opens one: a notification opens
      one without a message. */
  function PromptOf(text: string, isMeta: bool, sentinels: Sentinels): (message: seq<string>)
    ensures |message| <= 1
  {
    if sentinels.notification(text) then [""]
    else if text == "" || isMeta || sentinels.injected(text) then []
    else [text]
  }

  /** A line goes to the last turn. */
  function AddLine(scripts: seq<Script>, e: Event): (r: seq<Script>)
    requires scripts != []
    ensures |r| == |scripts|
  {
    var last := scripts[|scripts| - 1];
    scripts[|scripts| - 1 := last.(lines := Then(last.lines, e))]
  }

  /** A user line's tool_results go to the last turn, if there is one. */
  function WithResults(scripts: seq<Script>, e: Event): seq<Script>
    requires e.Line?
  {
    if scripts == [] || e.msg.toolResults == [] then scripts else AddLine(scripts, e)
  }

  /** And then, if it is a prompt, it opens another. `known` are the message ids so far. */
  function WithPrompt(scripts: seq<Script>, e: Event, known: set<string>, sentinels: Sentinels): seq<Script>
    requires e.Line?
  {
    var prompt := PromptOf(e.msg.text, e.isMeta, sentinels);
    if prompt == [] then scripts else scripts + [Script(prompt[0], e.when, known, NoLines)]
  }

  /** The turns after a user line. */
  function AfterUser(scripts: seq<Script>, e: Event, known: set<string>, sentinels: Sentinels): seq<Script>
    requires e.Line?
  {
    WithPrompt(WithResults(scripts, e), e, known, sentinels)
  }

  /** The turns after an assistant line, which opens one if it comes first. */
  function AfterAssistant(scripts: seq<Script>, e: Event, known: set<string>): seq<Script>
    requires e.Line?
  {
    AddLine(if scripts == [] then [Script("", e.when, known, NoLines)] else scripts, e)
  }

  function AfterLine(scripts: seq<Script>, e: Event, known: set<string>, sentinels: Sentinels): seq<Script> {
    if e.Line? && e.kind == User then AfterUser(scripts, e, known, sentinels)
    else if IsAssistant(e) then AfterAssistant(scripts, e, known)
    else scripts
  }

  /** The turns of the first `n` lines. */
  function Turns(events: seq<Event>, n: nat, sentinels: Sentinels): seq<Script>
    requires n <= |events|
  {
    if n == 0 then []
    else AfterLine(Turns(events, n - 1, sentinels), events[n - 1], Ids(events, n - 1), sentinels)
  }

  /** A user line opens a turn if its text is a notification, or is one, is not marked as meta
      and is none of the sentinels. */
  predicate Prompts(e: Event, sentinels: Sentinels) {
    e.Line? && e.kind == User &&
    (sentinels.notification(e.msg.text) || (e.msg.text != "" && !e.isMeta && !sentinels.injected(e.msg.text)))
  }

  /** The user messages of the turns of the first `n` lines: a notification has none, nor has a
      turn that an assistant line opens. */
  function UserMessages(events: seq<Event>, n: nat, sentinels: Sentinels): seq<string>
    requires n <= |events|
  {
    if n == 0 then []
    else
      var before, e := UserMessages(events, n - 1, sentinels), events[n - 1];
      if Prompts(e, sentinels) then before + [if sentinels.notification(e.msg.text) then "" else e.msg.text]
      else if IsAssistant(e) && before == [] then [""]
      else before
  }

  /** Each turn has its message, in order. */
  predicate MessagesAre(scripts: seq<Script>, messages: seq<string>) {
    |scripts| == |messages| && forall i :: 0 <= i < |scripts| ==> scripts[i].message == messages[i]
  }

  lemma {:induction false} TurnsHaveMessages(events: seq<Event>, n: nat, sentinels: Sentinels)
    requires n <= |events|
    ensures MessagesAre(Turns(events, n, sentinels), UserMessages(events, n, sentinels))
  {
    if n > 0 {
      TurnsHaveMessages(events, n - 1, sentinels);
      AfterLineMessages(Turns(events, n - 1, sentinels), events[n - 1], Ids(events, n - 1), sentinels,
          UserMessages(events, n - 1, sentinels));
    }
  }

  lemma AfterLineMessages(scripts: seq<Script>, e: Event, known: set<string>, sentinels: Sentinels,
      messages: seq<string>)
    requires MessagesAre(scripts, messages)
    ensures MessagesAre(AfterLine(scripts, e, known, sentinels),
        if Prompts(e, sentinels) then messages + [if sentinels.notification(e.msg.text) then "" else e.msg.text]
        else if IsAssistant(e) && messages == [] then [""]
        else messages)
  {
  }

  function SumUsage(scripts: seq<Script>, n: nat, f: Field): int
    requires n <= |scripts|
  {
    if n == 0 then 0 else SumUsage(scripts, n - 1, f) + UsageIn(scripts[n - 1].known, scripts[n - 1].lines, f)
  }

  lemma {:induction false} SumUsageSame(a: seq<Script>, b: seq<Script>, n: nat, f: Field)
    requires n <= |a| && n <= |b| && forall i :: 0 <= i < n ==> a[i] == b[i]
    ensures SumUsage(a, n, f) == SumUsage(b, n, f)
  {
    if n > 0 {
      SumUsageSame(a, b, n - 1, f);
    }
  }

  /** A line adds to the sum what it adds to its turn. */
  lemma AddLineUsage(scripts: seq<Script>, e: Event, f: Field)
    requires scripts != []
    ensures var last, after := scripts[|scripts| - 1], AddLine(scripts, e);
      SumUsage(after, |scripts|, f) == SumUsage(scripts, |scripts|, f) + UsageOf(last.known + IdsIn(last.lines), e, f)
  {
    SumUsageSame(scripts, AddLine(scripts, e), |scripts| - 1, f);
  }

  lemma OpenUsage(scripts: seq<Script>, s: Script, f: Field)
    requires s.lines == NoLines
    ensures SumUsage(scripts + [s], |scripts| + 1, f) == SumUsage(scripts, |scripts|, f)
  {
    SumUsageSame(scripts, scripts + [s], |scripts|, f);
  }

  /** The message ids known to the last turn. */
  predicate LastKnows(scripts: seq<Script>, ids: set<string>) {
    scripts != [] ==> scripts[|scripts| - 1].known + IdsIn(scripts[|scripts| - 1].lines) == ids
  }

  lemma AddLineKnows(scripts: seq<Script>, e: Event, ids: set<string>)
    requires scripts != [] && LastKnows(scripts, ids)
    ensures LastKnows(AddLine(scripts, e), ids + IdOf(e))
  {
  }

  /** The turns' usage is the transcript's: the first line of each message id counts once,
      in the turn it goes to. */
  lemma {:induction false} TurnsUsage(events: seq<Event>, n: nat, sentinels: Sentinels, f: Field)
    requires n <= |events|
    ensures LastKnows(Turns(events, n, sentinels), Ids(events, n))
    ensures SumUsage(Turns(events, n, sentinels), |Turns(events, n, sentinels)|, f) == Counted(events, n, f)
  {
    if n > 0 {
      TurnsUsage(events, n - 1, sentinels, f);
      LineUsage(Turns(events, n - 1, sentinels), events[n - 1], Ids(events, n - 1), sentinels, f);
    }
  }

  lemma LineUsage(scripts: seq<Script>, e: Event, ids: set<string>, sentinels: Sentinels, f: Field)
    requires LastKnows(scripts, ids)
    ensures var after := AfterLine(scripts, e, ids, sentinels);
      LastKnows(after, ids + IdOf(e)) &&
      SumUsage(after, |after|, f) == SumUsage(scripts, |scripts|, f) + UsageOf(ids, e, f)
  {
    if e.Line? && e.kind == User {
      UserUsage(scripts, e, ids, sentinels, f);
    } else if IsAssistant(e) {
      AssistantUsage(scripts, e, ids, f);
    }
    assert !IsAssistant(e) ==> ids + IdOf(e) == ids;
  }

  lemma UserUsage(scripts: seq<Script>, e: Event, ids: set<string>, sentinels: Sentinels, f: Field)
    requires e.Line? && e.kind == User && LastKnows(scripts, ids)
    ensures var after := AfterUser(scripts, e, ids, sentinels);
      LastKnows(after, ids) && SumUsage(after, |after|, f) == SumUsage(scripts, |scripts|, f)
  {
    var attached := WithResults(scripts, e);
    if attached != scripts {
      AddLineUsage(scripts, e, f);
      AddLineKnows(scripts, e, ids);
      assert ids + IdOf(e) == ids;
    }
    var prompt := PromptOf(e.msg.text, e.isMeta, sentinels);
    if prompt != [] {
      OpenUsage(attached, Script(prompt[0], e.when, ids, NoLines), f);
    }
  }

  lemma AssistantUsage(scripts: seq<Script>, e: Event, ids: set<string>, f: Field)
    requires IsAssistant(e) && LastKnows(scripts, ids)
    ensures var after := AfterAssistant(scripts, e, ids);
      LastKnows(after, ids + IdOf(e)) &&
      SumUsage(after, |after|, f) == SumUsage(scripts, |scripts|, f) + UsageOf(ids, e, f)
  {
    var all := if scripts == [] then [Script("", e.when, ids, NoLines)] else scripts;
    AddLineUsage(all, e, f);
    AddLineKnows(all, e, ids);
  }

  /** The assistant lines alone, without their raw references. */
  function Recording(l: Lines): Lines {
    match l
    case NoLines => NoLines
    case Then(front, e) => if IsAssistant(e) then Then(Recording(front), e.(raw := 0)) else Recording(front)
  }

  lemma {:induction false} ExtendedUnreferenced(calls: seq<ToolCall>, uses: seq<ToolUse>, n: nat, invocation: nat,
      when: Time, raw: RawRef)
    requires n <= |uses|
    ensures Extended(AllUnreferenced(calls), uses, n, invocation, when, 0)
        == AllUnreferenced(Extended(calls, uses, n, invocation, when, raw))
  {
    if n > 0 {
      ExtendedUnreferenced(calls, uses, n - 1, invocation, when, raw);
    }
  }

  /** They determine the calls up to raw references: nothing depends on where the
      tool_results come. */
  lemma {:induction false} RecordingDetermines(l: Lines)
    ensures Messages(Recording(l)) == Messages(l) && CallsOf(Recording(l)) == AllUnreferenced(CallsOf(l))
  {
    if l.Then? {
      var e := l.line;
      RecordingDetermines(l.front);
      if IsAssistant(e) {
        ExtendedUnreferenced(CallsOf(l.front), e.msg.toolUses, |e.msg.toolUses|,
            Place(Messages(l.front), e.msg.id) + 1, e.when, e.raw);
      }
    }
  }
}
