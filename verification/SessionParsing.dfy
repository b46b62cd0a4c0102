/** ParseEvents over a whole transcript (parser/claudecode/parser.go:29-169). */
module SessionParsing {
  import opened Wrappers
  import opened ToolResults
  import opened TurnBuilding
  import opened Scripts

  datatype ParseResult = ParseResult(turns: seq<Turn>, errors: seq<ParseError>, tokens: Tokens, turnCount: nat,
      toolCallCount: nat)

  /** How a turn's tool calls ended, and their history. */
  datatype Ended = Ended(tools: Tools, log: Log)

  /** How many of the tool_results of the first `n` lines are `x`. */
  function Offers(events: seq<Event>, n: nat, x: Attached): nat
    requires n <= |events|
  {
    if n == 0 then 0 else Offers(events, n - 1, x) + Count(ResultsIn(events[n - 1]), x)
  }

  /** How many calls of the first `n` finished turns have taken `x`. */
  function Placed(ends: seq<Ended>, n: nat, x: Attached): nat
    requires n <= |ends|
  {
    if n == 0 then 0 else Placed(ends, n - 1, x) + Taken(ends[n - 1].log.taken)[x]
  }

  /** How many of the first `n` errors report `x` as unmatched. */
  function Reported(errors: seq<ParseError>, n: nat, x: Attached): nat
    requires n <= |errors|
  {
    if n == 0 then 0 else Reported(errors, n - 1, x) + if errors[n - 1] == UnmatchedResult(x) then 1 else 0
  }

  function Reports(results: seq<Attached>): (errors: seq<ParseError>)
    ensures |errors| == |results|
  {
    seq(|results|, i requires 0 <= i < |results| => UnmatchedResult(results[i]))
  }

  lemma {:induction false} ReportedSame(errors: seq<ParseError>, others: seq<ParseError>, n: nat, x: Attached)
    requires n <= |errors| && n <= |others| && forall i :: 0 <= i < n ==> errors[i] == others[i]
    ensures Reported(errors, n, x) == Reported(others, n, x)
  {
    if n > 0 {
      ReportedSame(errors, others, n - 1, x);
    }
  }

  lemma {:induction false} ReportedMore(errors: seq<ParseError>, results: seq<Attached>, x: Attached)
    ensures var all := errors + Reports(results);
      Reported(all, |all|, x) == Reported(errors, |errors|, x) + Count(results, x)
  {
    var all := errors + Reports(results);
    if results == [] {
      ReportedSame(errors, all, |errors|, x);
    } else {
      var front, last := results[..|results| - 1], results[|results| - 1];
      ReportedMore(errors, front, x);
      ReportedSame(errors + Reports(front), all, |errors| + |front|, x);
      assert results == front + [last];
      CountAppend(front, [last], x);
    }
  }

  /** How many of the first `n` lines do not decode and have raw reference `x`. */
  function Malformed(events: seq<Event>, n: nat, x: RawRef): nat
    requires n <= |events|
  {
    if n == 0 then 0 else Malformed(events, n - 1, x) + if events[n - 1] == Event.Malformed(x) then 1 else 0
  }

  /** How many of the first `n` errors report such a line. */
  function BadLines(errors: seq<ParseError>, n: nat, x: RawRef): nat
    requires n <= |errors|
  {
    if n == 0 then 0 else BadLines(errors, n - 1, x) + if errors[n - 1] == BadLine(x) then 1 else 0
  }

  predicate BadLinesAlike(events: seq<Event>, n: nat, errors: seq<ParseError>, x: RawRef)
    requires n <= |events|
  {
    BadLines(errors, |errors|, x) == Malformed(events, n, x)
  }

  /** Every line that does not decode is reported once. */
  ghost predicate BadLinesOk(events: seq<Event>, n: nat, errors: seq<ParseError>)
    requires n <= |events|
  {
    forall x :: BadLinesAlike(events, n, errors, x)
  }

  lemma {:induction false} BadLinesSame(errors: seq<ParseError>, others: seq<ParseError>, n: nat, x: RawRef)
    requires n <= |errors| && n <= |others| && forall i :: 0 <= i < n ==> errors[i] == others[i]
    ensures BadLines(errors, n, x) == BadLines(others, n, x)
  {
    if n > 0 {
      BadLinesSame(errors, others, n - 1, x);
    }
  }

  lemma {:induction false} ReportsAreNoBadLines(errors: seq<ParseError>, results: seq<Attached>, n: nat, x: RawRef)
    requires n <= |results|
    ensures BadLines(errors + Reports(results), |errors| + n, x) == BadLines(errors, |errors|, x)
  {
    if n == 0 {
      BadLinesSame(errors + Reports(results), errors, |errors|, x);
    } else {
      ReportsAreNoBadLines(errors, results, n - 1, x);
      assert (errors + Reports(results))[|errors| + n - 1] == Reports(results)[n - 1];
    }
  }

  /** Reporting results is no report of a bad line. */
  lemma ReportsKeepBadLines(events: seq<Event>, n: nat, errors: seq<ParseError>, results: seq<Attached>)
    requires n <= |events| && BadLinesOk(events, n, errors)
    ensures BadLinesOk(events, n, errors + Reports(results))
  {
    var after := errors + Reports(results);
    forall x ensures BadLinesAlike(events, n, after, x) {
      assert BadLinesAlike(events, n, errors, x);
      ReportsAreNoBadLines(errors, results, |results|, x);
    }
  }

  /** A line that decodes asks for none. */
  lemma GoodLine(events: seq<Event>, n: nat, errors: seq<ParseError>)
    requires n < |events| && BadLinesOk(events, n, errors) && events[n].Line?
    ensures BadLinesOk(events, n + 1, errors)
  {
    var next := n + 1;
    forall x ensures BadLinesAlike(events, next, errors, x) {
      assert BadLinesAlike(events, n, errors, x);
    }
  }

  lemma BadLineReported(events: seq<Event>, n: nat, errors: seq<ParseError>)
    requires n < |events| && BadLinesOk(events, n, errors) && events[n].Malformed?
    ensures BadLinesOk(events, n + 1, errors + [BadLine(events[n].raw)])
  {
    var next, after := n + 1, errors + [BadLine(events[n].raw)];
    forall x ensures BadLinesAlike(events, next, after, x) {
      assert BadLinesAlike(events, n, errors, x);
      BadLinesSame(after, errors, |errors|, x);
    }
  }

  function TotalToolCalls(turns: seq<Turn>, n: nat): nat
    requires n <= |turns|
  {
    if n == 0 then 0 else TotalToolCalls(turns, n - 1) + |turns[n - 1].toolCalls|
  }

  /** What a turn is of its script: its texts and times, an invocation per message, the
      usage its lines bring, and the history of its tool calls. */
  ghost predicate Follows(s: Script, message: string, startedAt: Time, endedAt: Time, assistantFinal: string,
      tokens: Tokens, invocations: seq<Invocation>, log: Log) {
    && message == s.message && startedAt == s.start && endedAt == EndOf(s.start, s.lines)
    && assistantFinal == FinalText(s.lines)
    && (forall f :: Amount(tokens, f) == UsageIn(s.known, s.lines, f))
    && invocations == InvocationsOf(s.known, s.lines)
    && log.born == CallsOf(s.lines) && log.offered == ResultsOf(s.lines)
  }

  /** A finished turn: it follows its script, its tokens are its invocations', the
      long-lived tier is part of the total at both levels, and its tool calls are those of
      a settled history. */
  ghost predicate TurnOk(turn: Turn, end: Ended, s: Script) {
    && IsSum(turn.tokens, turn.invocations) && turn.tokens.Tiered() && AllTiered(turn.invocations) && Summed(turn)
    && turn.toolCalls == end.tools.calls
    && ToolResults.Valid(end.tools, end.log) && Settled(end.tools, end.log)
    && Follows(s, turn.userMessage, turn.startedAt, turn.endedAt, turn.assistantFinal, turn.tokens,
         turn.invocations, end.log)
  }

  ghost predicate TurnOkAt(turns: seq<Turn>, ends: seq<Ended>, scripts: seq<Script>, i: nat)
    requires i < |turns| == |ends| <= |scripts|
  {
    turns[i].index == i + 1 && TurnOk(turns[i], ends[i], scripts[i])
  }

  ghost predicate TurnsOk(turns: seq<Turn>, ends: seq<Ended>, scripts: seq<Script>) {
    && |turns| == |ends| <= |scripts|
    && forall i :: 0 <= i < |turns| ==> TurnOkAt(turns, ends, scripts, i)
  }

  /** An assistant line takes its turn on as its script does. */
  lemma FollowsAssistant(s: Script, e: Event, message: string, startedAt: Time, endedAt: Time, assistantFinal: string,
      tokens: Tokens, after: Tokens, invocations: seq<Invocation>, invocationsAfter: seq<Invocation>, log: Log,
      loggedAfter: Log, invocation: nat)
    requires IsAssistant(e) && Follows(s, message, startedAt, endedAt, assistantFinal, tokens, invocations, log)
    requires after ==
        if IsKnown(s, e.msg.id) then tokens else tokens.Add(TokensOf(e.msg.usage))
    requires invocation == Place(Messages(s.lines), e.msg.id) + 1
    requires loggedAfter == LoggedAll(log, e.msg.toolUses, |e.msg.toolUses|, invocation, e.when, e.raw)
    requires invocationsAfter ==
        InvocationsAfter(invocations, Messages(s.lines), e.msg, e.when, e.raw, IsKnown(s, e.msg.id))
    ensures Follows(s.(lines := Then(s.lines, e)), message, startedAt, LaterTime(endedAt, e.when),
        if e.msg.text != "" then e.msg.text else assistantFinal, after,
        invocationsAfter, loggedAfter)
  {
    assert ResultsOf(Then(s.lines, e)) == ResultsOf(s.lines);
  }

  /** And so do the tool_results of a user line. */
  lemma FollowsResults(s: Script, e: Event, message: string, startedAt: Time, endedAt: Time, assistantFinal: string,
      tokens: Tokens, invocations: seq<Invocation>, log: Log, loggedAfter: Log)
    requires e.Line? && e.kind == User
    requires Follows(s, message, startedAt, endedAt, assistantFinal, tokens, invocations, log)
    requires loggedAfter.born == log.born && loggedAfter.offered == log.offered + ResultsIn(e)
    ensures Follows(s.(lines := Then(s.lines, e)), message, startedAt, LaterTime(endedAt, e.when), assistantFinal,
        tokens, invocations, loggedAfter)
  {
  }

  ghost predicate BalanceOf(x: Attached, events: seq<Event>, n: nat, ends: seq<Ended>, errors: seq<ParseError>,
      offered: seq<Attached>, unmatched: seq<Attached>)
    requires n <= |events|
  {
    Offers(events, n, x) + Count(unmatched, x)
        == Placed(ends, |ends|, x) + Reported(errors, |errors|, x) + Count(offered, x)
  }

  /** The results of the lines read so far are placed, reported, or with the open turn. */
  ghost predicate ResultsBalance(events: seq<Event>, n: nat, ends: seq<Ended>, errors: seq<ParseError>,
      offered: seq<Attached>, unmatched: seq<Attached>)
    requires n <= |events|
  {
    forall x :: BalanceOf(x, events, n, ends, errors, offered, unmatched)
  }

  lemma {:induction false} PlacedSame(ends: seq<Ended>, end: Ended, n: nat, x: Attached)
    requires n <= |ends|
    ensures Placed(ends + [end], n, x) == Placed(ends, n, x)
  {
    if n > 0 {
      PlacedSame(ends, end, n - 1, x);
    }
  }

  lemma PlacedSnoc(ends: seq<Ended>, end: Ended, x: Attached)
    ensures var all := ends + [end];
      Placed(all, |all|, x) == Placed(ends, |ends|, x) + Taken(end.log.taken)[x]
  {
    PlacedSame(ends, end, |ends|, x);
  }

  lemma ResultFlush(events: seq<Event>, n: nat, ends: seq<Ended>, errors: seq<ParseError>, end: Ended, x: Attached)
    requires n <= |events| && BalanceOf(x, events, n, ends, errors, end.log.offered, end.log.unmatched) &&
        Balanced(end.tools, end.log, x)
    ensures BalanceOf(x, events, n, ends + [end], errors + Reports(end.tools.pending), [], [])
  {
    PlacedSnoc(ends, end, x);
    ReportedMore(errors, end.tools.pending, x);
    assert Count([], x) == 0;
  }

  /** Closing a turn places what its calls have taken and reports what still waits. */
  lemma ResultsFlush(events: seq<Event>, n: nat, ends: seq<Ended>, errors: seq<ParseError>, end: Ended)
    requires n <= |events| && ResultsBalance(events, n, ends, errors, end.log.offered, end.log.unmatched) &&
        Conserved(end.tools, end.log)
    ensures ResultsBalance(events, n, ends + [end], errors + Reports(end.tools.pending), [], [])
  {
    var endsAfter, errorsAfter, none := ends + [end], errors + Reports(end.tools.pending), [];
    forall x ensures BalanceOf(x, events, n, endsAfter, errorsAfter, none, none) {
      assert BalanceOf(x, events, n, ends, errors, end.log.offered, end.log.unmatched) && Balanced(end.tools, end.log, x);
      ResultFlush(events, n, ends, errors, end, x);
    }
  }

  /** A line's results go to the open turn, which reports some of them at once. */
  lemma ResultOffered(x: Attached, events: seq<Event>, n: nat, ends: seq<Ended>, errors: seq<ParseError>,
      offered: seq<Attached>, unmatched: seq<Attached>, refused: seq<Attached>)
    requires n < |events| && BalanceOf(x, events, n, ends, errors, offered, unmatched)
    ensures BalanceOf(x, events, n + 1, ends, errors + Reports(refused), offered + ResultsIn(events[n]),
        unmatched + refused)
  {
    ReportedMore(errors, refused, x);
    CountAppend(unmatched, refused, x);
    CountAppend(offered, ResultsIn(events[n]), x);
  }

  lemma ResultsOffered(events: seq<Event>, n: nat, ends: seq<Ended>, errors: seq<ParseError>,
      offered: seq<Attached>, unmatched: seq<Attached>, refused: seq<Attached>)
    requires n < |events| && ResultsBalance(events, n, ends, errors, offered, unmatched)
    ensures ResultsBalance(events, n + 1, ends, errors + Reports(refused), offered + ResultsIn(events[n]),
        unmatched + refused)
  {
    var next, errorsAfter, offeredAfter, unmatchedAfter := n + 1, errors + Reports(refused),
        offered + ResultsIn(events[n]), unmatched + refused;
    forall x ensures BalanceOf(x, events, next, ends, errorsAfter, offeredAfter, unmatchedAfter) {
      assert BalanceOf(x, events, n, ends, errors, offered, unmatched);
      ResultOffered(x, events, n, ends, errors, offered, unmatched, refused);
    }
  }

  /** Without an open turn they are all reported. */
  lemma ResultReported(x: Attached, events: seq<Event>, n: nat, ends: seq<Ended>, errors: seq<ParseError>)
    requires n < |events| && BalanceOf(x, events, n, ends, errors, [], [])
    ensures BalanceOf(x, events, n + 1, ends, errors + Reports(ResultsIn(events[n])), [], [])
  {
    ReportedMore(errors, ResultsIn(events[n]), x);
  }

  lemma ResultsReported(events: seq<Event>, n: nat, ends: seq<Ended>, errors: seq<ParseError>)
    requires n < |events| && ResultsBalance(events, n, ends, errors, [], [])
    ensures ResultsBalance(events, n + 1, ends, errors + Reports(ResultsIn(events[n])), [], [])
  {
    var next, errorsAfter, none := n + 1, errors + Reports(ResultsIn(events[n])), [];
    forall x ensures BalanceOf(x, events, next, ends, errorsAfter, none, none) {
      assert BalanceOf(x, events, n, ends, errors, none, none);
      ResultReported(x, events, n, ends, errors);
    }
  }

  lemma ResultsUntouched(events: seq<Event>, n: nat, ends: seq<Ended>, errors: seq<ParseError>,
      offered: seq<Attached>, unmatched: seq<Attached>)
    requires n < |events| && ResultsBalance(events, n, ends, errors, offered, unmatched) && ResultsIn(events[n]) == []
    ensures ResultsBalance(events, n + 1, ends, errors, offered, unmatched)
  {
    var next := n + 1;
    forall x ensures BalanceOf(x, events, next, ends, errors, offered, unmatched) {
      assert BalanceOf(x, events, n, ends, errors, offered, unmatched);
    }
  }

  lemma ResultsIgnoreBadLines(events: seq<Event>, n: nat, ends: seq<Ended>, errors: seq<ParseError>,
      offered: seq<Attached>, unmatched: seq<Attached>, raw: RawRef)
    requires n <= |events| && ResultsBalance(events, n, ends, errors, offered, unmatched)
    ensures ResultsBalance(events, n, ends, errors + [BadLine(raw)], offered, unmatched)
  {
    var errorsAfter := errors + [BadLine(raw)];
    forall x ensures BalanceOf(x, events, n, ends, errorsAfter, offered, unmatched) {
      assert BalanceOf(x, events, n, ends, errors, offered, unmatched);
      BadLinesReportNothing(errors, raw, x);
    }
  }

  lemma BadLinesReportNothing(errors: seq<ParseError>, raw: RawRef, x: Attached)
    ensures Reported(errors + [BadLine(raw)], |errors + [BadLine(raw)]|, x) == Reported(errors, |errors|, x)
  {
    ReportedSame(errors, errors + [BadLine(raw)], |errors|, x);
  }

  lemma NothingYet(events: seq<Event>)
    ensures ResultsBalance(events, 0, [], [], [], [])
  {
  }

  /** With no turn open every tool_result is placed or reported. */
  lemma AllSettled(events: seq<Event>, ends: seq<Ended>, errors: seq<ParseError>, x: Attached)
    requires ResultsBalance(events, |events|, ends, errors, [], [])
    ensures Offers(events, |events|, x) == Placed(ends, |ends|, x) + Reported(errors, |errors|, x)
  {
    assert BalanceOf(x, events, |events|, ends, errors, [], []);
  }

  lemma IdsUntouched(events: seq<Event>, n: nat)
    requires n < |events| && !IsAssistant(events[n])
    ensures Ids(events, n + 1) == Ids(events, n)
  {
  }

  /** Closing a turn keeps every account. */
  lemma CloseAccounts(events: seq<Event>, n: nat, turns: seq<Turn>, ends: seq<Ended>, errors: seq<ParseError>,
      scripts: seq<Script>, turn: Turn, end: Ended)
    requires n <= |events| && TurnsOk(turns, ends, scripts) && |scripts| == |turns| + 1
    requires turn.index == |turns| + 1 && TurnOk(turn, end, scripts[|turns|])
    requires ResultsBalance(events, n, ends, errors, end.log.offered, end.log.unmatched)
    ensures TurnsOk(turns + [turn], ends + [end], scripts)
    ensures ResultsBalance(events, n, ends + [end], errors + Reports(end.tools.pending), [], [])
  {
    ResultsFlush(events, n, ends, errors, end);
    var turnsAfter, endsAfter := turns + [turn], ends + [end];
    forall i | 0 <= i < |turnsAfter| ensures TurnOkAt(turnsAfter, endsAfter, scripts, i) {
      if i < |turns| {
        assert TurnOkAt(turns, ends, scripts, i);
      }
    }
  }

  /** The turns read so far are not touched by what their last script goes on to hold. */
  lemma OthersStay(turns: seq<Turn>, ends: seq<Ended>, scripts: seq<Script>, e: Event)
    requires TurnsOk(turns, ends, scripts) && |scripts| == |turns| + 1
    ensures TurnsOk(turns, ends, AddLine(scripts, e))
  {
    var after := AddLine(scripts, e);
    forall i | 0 <= i < |turns| ensures TurnOkAt(turns, ends, after, i) {
      assert TurnOkAt(turns, ends, scripts, i);
    }
  }

  lemma OthersStayToo(turns: seq<Turn>, ends: seq<Ended>, scripts: seq<Script>, s: Script)
    requires TurnsOk(turns, ends, scripts)
    ensures TurnsOk(turns, ends, scripts + [s])
  {
    var after := scripts + [s];
    forall i | 0 <= i < |turns| ensures TurnOkAt(turns, ends, after, i) {
      assert TurnOkAt(turns, ends, scripts, i);
    }
  }

  /** The state of one ParseEvents call: the variables its loop and its flush share. */
  class SessionParser {
    const seen: SeenMessages
    const sentinels: Sentinels
    var turns: seq<Turn>
    var current: TurnBuilder?
    var errors: seq<ParseError>
    ghost var ends: seq<Ended>
    /** The scripts of the finished turns, then of the open one. */
    ghost var scripts: seq<Script>
    ghost var repr: set<object>

    ghost predicate ReprOk()
      reads this
    {
      this in repr && seen in repr && (current != null ==> current in repr)
    }

    /** The first `n` lines have been read. */
    ghost predicate Valid(events: seq<Event>, n: nat)
      requires n <= |events|
      reads this, repr
    {
      Accounts(events, n) && scripts == Turns(events, n, sentinels) && (current == null ==> scripts == [])
    }

    /** The open turn follows a script. */
    ghost predicate OpenOk(s: Script)
      requires ReprOk() && current != null
      reads this, repr
    {
      && current.seen == seen && current.index == |turns| + 1 && current.Valid()
      && current.ids == Messages(s.lines) && Knows(s, seen.refs.Keys)
      && Follows(s, current.userMessage, current.startedAt, current.endedAt, current.assistantFinal, current.tokens,
           current.invocations, current.log)
    }

    ghost predicate Accounts(events: seq<Event>, n: nat)
      requires n <= |events|
      reads this, repr
    {
      && ReprOk() && TurnsOk(turns, ends, scripts) && BadLinesOk(events, n, errors)
      && seen.refs.Keys == Ids(events, n)
      && (current == null ==>
           && |scripts| == |turns| && RefsOk(seen.refs, |turns| + 1, [])
           && ResultsBalance(events, n, ends, errors, [], []))
      && (current != null ==>
           && |scripts| == |turns| + 1 && OpenOk(scripts[|turns|])
           && ResultsBalance(events, n, ends, errors, current.log.offered, current.log.unmatched))
    }

    constructor (ghost events: seq<Event>, sentinels: Sentinels)
      ensures Valid(events, 0) && this.sentinels == sentinels && fresh(repr)
    {
      this.sentinels := sentinels;
      seen := new SeenMessages();
      NothingYet(events);
      turns, current, errors, ends, scripts := [], null, [], [], [];
      repr := {this, seen};
    }

    method Flush(ghost events: seq<Event>, ghost n: nat)
      requires n <= |events| && Accounts(events, n)
      modifies repr
      ensures Accounts(events, n) && current == null && fresh(repr - old(repr))
      ensures scripts == old(scripts)
    {
      if current == null {
        return;
      }
      var turn, pending := current.Finish();
      RefsPass(seen.refs, current.index, current.ids);
      ghost var end := Ended(current.tools, current.log);
      CloseAccounts(events, n, turns, ends, errors, scripts, turn, end);
      turns := turns + [turn];
      ReportsKeepBadLines(events, n, errors, pending);
      errors := errors + Reports(pending);
      ends := ends + [end];
      current := null;
    }

    method OpenTurn(ghost events: seq<Event>, ghost n: nat, text: string, when: Time)
      requires n <= |events| && Accounts(events, n) && current == null
      modifies `current, `scripts, `repr
      ensures Accounts(events, n) && current != null && fresh(repr - old(repr))
      ensures scripts == old(scripts) + [Script(text, when, Ids(events, n), NoLines)]
    {
      current := new TurnBuilder(|turns| + 1, text, when, seen);
      OthersStayToo(turns, ends, scripts, Script(text, when, Ids(events, n), NoLines));
      scripts := scripts + [Script(text, when, Ids(events, n), NoLines)];
      repr := repr + {current};
    }

    /** An assistant line goes to the open turn. */
    method RecordInOpen(e: Event, ghost s: Script)
      requires ReprOk() && current != null && OpenOk(s) && IsAssistant(e)
      modifies seen, current
      ensures OpenOk(s.(lines := Then(s.lines, e))) && seen.refs.Keys == old(seen.refs.Keys) + IdOf(e)
      ensures current.log.offered == old(current.log.offered) && current.log.unmatched == old(current.log.unmatched)
    {
      KnowsMore(s, e, seen.refs.Keys);
      ghost var endedAt, assistantFinal, tokens, invocations, log := current.endedAt, current.assistantFinal,
          current.tokens, current.invocations, current.log;
      var at := current.RecordAssistantMessage(e.msg, e.when, e.raw);
      FollowsAssistant(s, e, current.userMessage, current.startedAt, endedAt, assistantFinal, tokens, current.tokens,
          invocations, current.invocations, log, current.log, at + 1);
    }

    method Record(events: seq<Event>, n: nat)
      requires n < |events| && Accounts(events, n) && IsAssistant(events[n]) && current != null
      modifies `scripts, seen, current
      ensures Accounts(events, n + 1) && scripts == AddLine(old(scripts), events[n])
    {
      RecordInOpen(events[n], scripts[|turns|]);
      ResultsUntouched(events, n, ends, errors, current.log.offered, current.log.unmatched);
      OthersStay(turns, ends, scripts, events[n]);
      GoodLine(events, n, errors);
      scripts := AddLine(scripts, events[n]);
    }

    /** An assistant line, which opens a turn if none is open. */
    method OnAssistant(events: seq<Event>, n: nat)
      requires n < |events| && Valid(events, n) && IsAssistant(events[n])
      modifies repr
      ensures Valid(events, n + 1) && fresh(repr - old(repr))
    {
      if current == null {
        OpenTurn(events, n, "", events[n].when);
      }
      Record(events, n);
    }

    /** The tool_results of a user line go to the open turn. */
    method AttachToOpen(events: seq<Event>, n: nat)
      requires n < |events| && Accounts(events, n) && events[n].Line? && events[n].kind == User && current != null
      modifies `errors, `scripts, current
      ensures Accounts(events, n + 1) && scripts == AddLine(old(scripts), events[n])
    {
      var e := events[n];
      ghost var s, endedAt, log := scripts[|turns|], current.endedAt, current.log;
      KnowsMore(s, e, seen.refs.Keys);
      assert seen.refs.Keys + IdOf(e) == seen.refs.Keys;
      var refused := current.AttachToolResults(e.msg.toolResults, e.when, e.raw);
      FollowsResults(s, e, current.userMessage, current.startedAt, endedAt, current.assistantFinal, current.tokens,
          current.invocations, log, current.log);
      ResultsOffered(events, n, ends, errors, log.offered, log.unmatched, refused);
      OthersStay(turns, ends, scripts, e);
      IdsUntouched(events, n);
      ReportsKeepBadLines(events, n, errors, refused);
      GoodLine(events, n, errors + Reports(refused));
      errors := errors + Reports(refused);
      scripts := AddLine(scripts, e);
    }

    method AttachResults(events: seq<Event>, n: nat)
      requires n < |events| && Accounts(events, n) && events[n].Line? && events[n].kind == User
      requires current == null ==> scripts == []
      modifies `errors, `scripts, current
      ensures Accounts(events, n + 1) && scripts == WithResults(old(scripts), events[n])
    {
      if events[n].msg.toolResults == [] {
        Skip(events, n);
      } else if current != null {
        AttachToOpen(events, n);
      } else {
        IdsUntouched(events, n);
        ResultsReported(events, n, ends, errors);
        ReportsKeepBadLines(events, n, errors, ResultsIn(events[n]));
        GoodLine(events, n, errors + Reports(ResultsIn(events[n])));
        errors := errors + Reports(ResultsIn(events[n]));
      }
    }

    /** A line that brings nothing leaves every account as it is. */
    ghost method Skip(events: seq<Event>, n: nat)
      requires n < |events| && Accounts(events, n) && !IsAssistant(events[n]) && !events[n].Malformed?
      requires ResultsIn(events[n]) == []
      ensures Accounts(events, n + 1)
    {
      IdsUntouched(events, n);
      GoodLine(events, n, errors);
      if current != null {
        ResultsUntouched(events, n, ends, errors, current.log.offered, current.log.unmatched);
      } else {
        ResultsUntouched(events, n, ends, errors, [], []);
      }
    }

    /** A prompt ends the open turn and opens another. */
    method NextTurn(ghost events: seq<Event>, ghost n: nat, e: Event)
      requires n <= |events| && Accounts(events, n) && e.Line?
      modifies repr
      ensures Accounts(events, n) && fresh(repr - old(repr)) && (old(current) != null ==> current != null)
      ensures scripts == WithPrompt(old(scripts), e, Ids(events, n), sentinels)
      ensures current == null ==> scripts == old(scripts)
    {
      var prompt := PromptOf(e.msg.text, e.isMeta, sentinels);
      if prompt != [] {
        Flush(events, n);
        OpenTurn(events, n, prompt[0], e.when);
      }
    }

    /** A user line: its tool_results first, then, if it is a prompt, a new turn. */
    method OnUser(events: seq<Event>, n: nat)
      requires n < |events| && Valid(events, n) && events[n].Line? && events[n].kind == User
      modifies repr
      ensures Valid(events, n + 1) && fresh(repr - old(repr))
    {
      AttachResults(events, n);
      IdsUntouched(events, n);
      NextTurn(events, n + 1, events[n]);
    }

    /** A line that does not decode is reported, and brings nothing else. */
    method ReportBadLine(events: seq<Event>, n: nat)
      requires n < |events| && Accounts(events, n) && events[n].Malformed?
      modifies `errors
      ensures Accounts(events, n + 1)
    {
      IdsUntouched(events, n);
      BadLineReported(events, n, errors);
      if current != null {
        ResultsUntouched(events, n, ends, errors, current.log.offered, current.log.unmatched);
        ResultsIgnoreBadLines(events, n + 1, ends, errors, current.log.offered, current.log.unmatched, events[n].raw);
      } else {
        ResultsUntouched(events, n, ends, errors, [], []);
        ResultsIgnoreBadLines(events, n + 1, ends, errors, [], [], events[n].raw);
      }
      errors := errors + [BadLine(events[n].raw)];
    }

    /** Any other line leaves the turns alone. */
    method OnOther(events: seq<Event>, n: nat)
      requires n < |events| && Accounts(events, n) && (events[n].Malformed? || events[n].kind == Other)
      modifies `errors
      ensures Accounts(events, n + 1)
    {
      if events[n].Malformed? {
        ReportBadLine(events, n);
      } else {
        Skip(events, n);
      }
    }

    method OnEvent(events: seq<Event>, n: nat)
      requires n < |events| && Valid(events, n)
      modifies repr
      ensures Valid(events, n + 1) && fresh(repr - old(repr))
    {
      if events[n].Line? && events[n].kind == User {
        OnUser(events, n);
      } else if events[n].Line? && events[n].kind == Assistant {
        OnAssistant(events, n);
      } else {
        OnOther(events, n);
      }
    }

    method ReadLines(events: seq<Event>)
      requires Valid(events, 0)
      modifies repr
      ensures Valid(events, |events|) && fresh(repr - old(repr))
    {
      for i := 0 to |events|
        invariant fresh(repr - old(repr))
        invariant Valid(events, i)
      {
        OnEvent(events, i);
      }
    }
  }

  /** A call completed by one of the results, that names it or nothing. */
  ghost predicate CompletedByOne(call: ToolCall, results: seq<Attached>, final: ToolCall) {
    exists a :: a in results && a.result.useID in {"", call.useID} && final == Completed(call, a)
  }

  /** A turn's record of the calls its lines record: each as recorded or completed by a
      result its lines bring, and in an unambiguous turn completed exactly by the one that
      names it. */
  ghost predicate CallsAreFinal(calls: seq<ToolCall>, l: Lines) {
    && |calls| == |CallsOf(l)|
    && (forall c :: 0 <= c < |calls| ==>
         calls[c] == CallsOf(l)[c] || CompletedByOne(CallsOf(l)[c], ResultsOf(l), calls[c]))
    && (Unambiguous(CallsOf(l), ResultsOf(l)) ==> forall c :: 0 <= c < |calls| ==>
         IsFinal(CallsOf(l)[c], multiset(ResultsOf(l)), calls[c]))
  }

  /** A call shows the result `a`, which names it or nothing. */
  ghost predicate ShowsOne(call: ToolCall, results: seq<Attached>) {
    exists a :: a in results && a.result.useID in {"", call.useID} && Shows(call, a)
  }

  ghost predicate ShowsIts(call: ToolCall, results: seq<Attached>) {
    if exists a :: a in results && a.result.useID == call.useID
    then exists a :: a in results && a.result.useID == call.useID && Shows(call, a)
    else Unanswered(call)
  }

  /** The same, field by field: one call per tool_use of the lines, in order, with its name,
      use id, input, line and invocation; unanswered, or showing the output, times and status
      of a result of the lines; and in an unambiguous turn of the one that names it. */
  ghost predicate CallsShow(calls: seq<ToolCall>, l: Lines) {
    && |calls| == |UsesOf(l)|
    && (forall c :: 0 <= c < |calls| ==> Describes(calls[c], UsesOf(l)[c], c))
    && (forall c :: 0 <= c < |calls| ==> Unanswered(calls[c]) || ShowsOne(calls[c], ResultsOf(l)))
    && (Unambiguous(CallsOf(l), ResultsOf(l)) ==> forall c :: 0 <= c < |calls| ==> ShowsIts(calls[c], ResultsOf(l)))
  }

  lemma FinalCallShows(call: ToolCall, u: Use, c: nat, results: seq<Attached>, final: ToolCall)
    requires Describes(call, u, c) && Unanswered(call)
    requires final == call || CompletedByOne(call, results, final)
    ensures Describes(final, u, c) && (Unanswered(final) || ShowsOne(final, results))
    ensures IsFinal(call, multiset(results), final) ==> ShowsIts(final, results)
  {
    if final != call {
      var a :| a in results && a.result.useID in {"", call.useID} && final == Completed(call, a);
      CompletedShows(call, a);
    }
    if IsFinal(call, multiset(results), final) {
      if b :| b in results && b.result.useID == call.useID {
        assert b in multiset(results);
        var a :| a in multiset(results) && a.result.useID == call.useID && final == Completed(call, a);
        CompletedShows(call, a);
      } else {
        assert forall a :: a in multiset(results) ==> a in results;
      }
    }
  }

  lemma FinalCallsShow(calls: seq<ToolCall>, l: Lines)
    requires CallsAreFinal(calls, l)
    ensures CallsShow(calls, l)
  {
    CallsAreFresh(l);
    forall c | 0 <= c < |calls|
      ensures Describes(calls[c], UsesOf(l)[c], c)
      ensures Unanswered(calls[c]) || ShowsOne(calls[c], ResultsOf(l))
      ensures Unambiguous(CallsOf(l), ResultsOf(l)) ==> ShowsIts(calls[c], ResultsOf(l))
    {
      FinalCallShows(CallsOf(l)[c], UsesOf(l)[c], c, ResultsOf(l), calls[c]);
    }
  }

  /** The turns' tool calls are those of the transcript. */
  ghost predicate CallsFollow(turns: seq<Turn>, scripts: seq<Script>) {
    && |turns| == |scripts|
    && forall t :: 0 <= t < |turns| ==>
        CallsAreFinal(turns[t].toolCalls, scripts[t].lines) && CallsShow(turns[t].toolCalls, scripts[t].lines)
  }

  lemma FinalCalls(turn: Turn, end: Ended, s: Script)
    requires TurnOk(turn, end, s)
    ensures CallsAreFinal(turn.toolCalls, s.lines) && CallsShow(turn.toolCalls, s.lines)
  {
    CallsFinalInTurn(turn, end, s);
    FinalCallsShow(turn.toolCalls, s.lines);
  }

  lemma CallsFinalInTurn(turn: Turn, end: Ended, s: Script)
    requires TurnOk(turn, end, s)
    ensures CallsAreFinal(turn.toolCalls, s.lines)
  {
    forall c | 0 <= c < |turn.toolCalls| && end.log.taken[c].Some?
      ensures CompletedByOne(CallsOf(s.lines)[c], ResultsOf(s.lines), turn.toolCalls[c])
    {
      TakenIsOffered(end.tools, end.log, c);
      assert CallOk(end.tools.calls, end.log.born, end.log.taken, c);
    }
    forall c | 0 <= c < |turn.toolCalls| && end.log.taken[c].None?
      ensures turn.toolCalls[c] == CallsOf(s.lines)[c]
    {
      assert CallOk(end.tools.calls, end.log.born, end.log.taken, c);
    }
    if Unambiguous(end.log.born, end.log.offered) {
      forall c | 0 <= c < |turn.toolCalls|
        ensures IsFinal(end.log.born[c], multiset(end.log.offered), turn.toolCalls[c])
      {
        SettledCallsAreFinal(end.tools, end.log, c);
      }
    }
  }

  /** Turns with the same assistant lines, and the same tool_results in any order and
      anywhere between them, have the same tool calls, but for the line numbers these
      refer to. */
  lemma OrderIsIrrelevant(calls: seq<ToolCall>, l: Lines, others: seq<ToolCall>, k: Lines)
    requires CallsAreFinal(calls, l) && CallsAreFinal(others, k)
    requires Recording(l) == Recording(k) && multiset(Bare(ResultsOf(l))) == multiset(Bare(ResultsOf(k)))
    requires Unambiguous(CallsOf(l), ResultsOf(l))
    ensures AllUnreferenced(calls) == AllUnreferenced(others)
  {
    RecordingDetermines(l);
    RecordingDetermines(k);
    UnambiguousInAnyOrder(CallsOf(l), ResultsOf(l), CallsOf(k), ResultsOf(k));
    assert |calls| == |AllUnreferenced(CallsOf(l))| == |others|;
    forall c | 0 <= c < |calls| ensures Unreferenced(calls[c]) == Unreferenced(others[c]) {
      assert AllUnreferenced(CallsOf(l))[c] == AllUnreferenced(CallsOf(k))[c];
      FinalUpToReferences(CallsOf(l)[c], ResultsOf(l), calls[c], CallsOf(k)[c], ResultsOf(k), others[c]);
    }
  }

  /** Two transcripts that differ in this way in a turn, give it the same tool calls. */
  lemma InterleavingIsIrrelevant(events: seq<Event>, turns: seq<Turn>, t: nat, others: seq<Event>,
      otherTurns: seq<Turn>, u: nat, sentinels: Sentinels)
    requires CallsFollow(turns, Turns(events, |events|, sentinels)) && t < |turns|
    requires CallsFollow(otherTurns, Turns(others, |others|, sentinels)) && u < |otherTurns|
    requires var l, k := Turns(events, |events|, sentinels)[t].lines, Turns(others, |others|, sentinels)[u].lines;
      && Recording(l) == Recording(k) && multiset(Bare(ResultsOf(l))) == multiset(Bare(ResultsOf(k)))
      && Unambiguous(CallsOf(l), ResultsOf(l))
    ensures AllUnreferenced(turns[t].toolCalls) == AllUnreferenced(otherTurns[u].toolCalls)
  {
    OrderIsIrrelevant(turns[t].toolCalls, Turns(events, |events|, sentinels)[t].lines,
        otherTurns[u].toolCalls, Turns(others, |others|, sentinels)[u].lines);
  }

  /** Every turn's usage is what its lines bring, and so is the session's. */
  lemma {:induction false} TurnsBringUsage(turns: seq<Turn>, ends: seq<Ended>, scripts: seq<Script>, n: nat, f: Field)
    requires TurnsOk(turns, ends, scripts) && n <= |turns|
    ensures SumTurns(turns, n, f) == SumUsage(scripts, n, f)
  {
    if n > 0 {
      TurnsBringUsage(turns, ends, scripts, n - 1, f);
      assert TurnOkAt(turns, ends, scripts, n - 1);
    }
  }

  /** ParseEvents. For every transcript: one turn per script, with its texts, times, usage,
      invocations and tool calls; the session's tokens are the usage of the lines that
      count, and the sum of its turns'; each turn's are the sum of its invocations'; the
      long-lived cache tier never exceeds the total; and every tool_result ends as one
      applied result or one parse error, and every line that does not decode as one. `ends` is
      each turn's tool history. */
  method ParseEvents(events: seq<Event>, sentinels: Sentinels) returns (r: ParseResult, ghost ends: seq<Ended>)
    ensures forall f :: Amount(r.tokens, f) == Counted(events, |events|, f) == SumTurns(r.turns, |r.turns|, f)
    ensures r.tokens.Tiered()
    ensures r.turnCount == |r.turns| && r.toolCallCount == TotalToolCalls(r.turns, |r.turns|)
    ensures TurnsOk(r.turns, ends, Turns(events, |events|, sentinels))
    ensures CallsFollow(r.turns, Turns(events, |events|, sentinels))
    ensures Says(r.turns, UserMessages(events, |events|, sentinels))
    ensures forall x :: Offers(events, |events|, x) == Placed(ends, |ends|, x) + Reported(r.errors, |r.errors|, x)
    ensures BadLinesOk(events, |events|, r.errors)
  {
    var p := ReadEvents(events, sentinels);
    ends := p.ends;
    forall x: Attached ensures Offers(events, |events|, x)
        == Placed(ends, |ends|, x) + Reported(p.errors, |p.errors|, x) {
      AllSettled(events, ends, p.errors, x);
    }
    ReadTurns(events, sentinels, p.turns, ends);
    TurnsSay(events, sentinels, p.turns, ends);
    var tokens, calls := FinalizeSession(p.turns);
    r := ParseResult(p.turns, p.errors, tokens, |p.turns|, calls);
  }

  /** One turn per message, in order. */
  predicate Says(turns: seq<Turn>, messages: seq<string>) {
    |turns| == |messages| && forall i :: 0 <= i < |turns| ==> turns[i].userMessage == messages[i]
  }

  lemma TurnsSay(events: seq<Event>, sentinels: Sentinels, turns: seq<Turn>, ends: seq<Ended>)
    requires TurnsOk(turns, ends, Turns(events, |events|, sentinels))
    requires |turns| == |Turns(events, |events|, sentinels)|
    ensures Says(turns, UserMessages(events, |events|, sentinels))
  {
    var scripts := Turns(events, |events|, sentinels);
    TurnsHaveMessages(events, |events|, sentinels);
    forall i | 0 <= i < |turns| ensures turns[i].userMessage == scripts[i].message {
      assert TurnOkAt(turns, ends, scripts, i);
    }
  }

  /** What the turns' accounts come to. */
  lemma ReadTurns(events: seq<Event>, sentinels: Sentinels, turns: seq<Turn>, ends: seq<Ended>)
    requires TurnsOk(turns, ends, Turns(events, |events|, sentinels))
    requires |turns| == |Turns(events, |events|, sentinels)|
    ensures forall f :: Counted(events, |events|, f) == SumTurns(turns, |turns|, f)
    ensures CallsFollow(turns, Turns(events, |events|, sentinels))
    ensures forall i :: 0 <= i < |turns| ==> turns[i].tokens.Tiered()
  {
    var scripts := Turns(events, |events|, sentinels);
    forall f ensures Counted(events, |events|, f) == SumTurns(turns, |turns|, f) {
      TurnsBringUsage(turns, ends, scripts, |turns|, f);
      TurnsUsage(events, |events|, sentinels, f);
    }
    forall t | 0 <= t < |turns|
      ensures CallsAreFinal(turns[t].toolCalls, scripts[t].lines) && CallsShow(turns[t].toolCalls, scripts[t].lines)
      ensures turns[t].tokens.Tiered()
    {
      assert TurnOkAt(turns, ends, scripts, t);
      FinalCalls(turns[t], ends[t], scripts[t]);
    }
  }

  /** Every line, and the last flush. */
  method ReadEvents(events: seq<Event>, sentinels: Sentinels) returns (p: SessionParser)
    ensures TurnsOk(p.turns, p.ends, Turns(events, |events|, sentinels))
    ensures |p.turns| == |Turns(events, |events|, sentinels)|
    ensures ResultsBalance(events, |events|, p.ends, p.errors, [], []) && BadLinesOk(events, |events|, p.errors)
  {
    p := new SessionParser(events, sentinels);
    p.ReadLines(events);
    p.Flush(events, |events|);
  }

  /** FinalizeSession's fold of the turns into the session. */
  method FinalizeSession(turns: seq<Turn>) returns (tokens: Tokens, calls: nat)
    requires forall i :: 0 <= i < |turns| ==> turns[i].tokens.Tiered()
    ensures (forall f :: Amount(tokens, f) == SumTurns(turns, |turns|, f)) && tokens.Tiered() &&
        calls == TotalToolCalls(turns, |turns|)
  {
    tokens, calls := ZERO, 0;
    var i := 0;
    while i < |turns|
      invariant i <= |turns| && (forall f :: Amount(tokens, f) == SumTurns(turns, i, f)) && tokens.Tiered() &&
          calls == TotalToolCalls(turns, i)
    {
      calls := calls + |turns[i].toolCalls|;
      tokens := tokens.Add(turns[i].tokens);
      i := i + 1;
    }
  }
}
