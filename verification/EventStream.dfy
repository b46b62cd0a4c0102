/** The event-stream format itself (WHATWG HTML Living Standard, sections 9.2.5 and 9.2.6),
    as the reference the writer is held to. */
module EventStream {
  import opened Sse

  datatype Message = Message(eventType: string, data: string, lastEventID: string)

  /** A parser between two characters. Lines end with LF, CR or CR LF. */
  datatype Parser = Parser(partial: string, afterCR: bool, eventType: string, data: string, id: string,
      out: seq<Message>)

  /** Where the first colon is, or the length if there is none. */
  function FirstColon(line: string): (i: nat)
    ensures i <= |line| && (i < |line| ==> line[i] == ':') && ':' !in line[..i]
  {
    if line == "" || line[0] == ':' then 0
    else
      var i := FirstColon(line[1..]);
      assert line[..i + 1] == [line[0]] + line[1..][..i];
      i + 1
  }

  function Dispatch(p: Parser): Parser {
    if p.data == "" then p.(eventType := "")
    else
      var data := if p.data[|p.data| - 1] == '\n' then p.data[..|p.data| - 1] else p.data;
      p.(eventType := "", data := "",
          out := p.out + [Message(if p.eventType == "" then "message" else p.eventType, data, p.id)])
  }

  function Field(p: Parser, name: string, value: string): Parser {
    if name == "event" then p.(eventType := value)
    else if name == "data" then p.(data := p.data + value + "\n")
    else if name == "id" then (if '\0' in value then p else p.(id := value))
    else p
  }

  function OnLine(p: Parser, line: string): Parser {
    if line == "" then Dispatch(p)
    else
      var i := FirstColon(line);
      if i == 0 then p
      else if i < |line| then Field(p, line[..i], AfterSpace(line[i + 1..]))
      else Field(p, line, "")
  }

  function Feed(p: Parser, ch: char): Parser {
    if ch == '\r' then OnLine(p.(partial := "", afterCR := true), p.partial)
    else if ch == '\n' && p.afterCR then p.(afterCR := false)
    else if ch == '\n' then OnLine(p.(partial := ""), p.partial)
    else p.(partial := p.partial + [ch], afterCR := false)
  }

  function Run(p: Parser, s: string): Parser
    decreases |s|
  {
    if s == "" then p else Run(Feed(p, s[0]), s[1..])
  }

  /** The messages of a stream. One leading byte order mark is skipped; an unfinished event
      is discarded. */
  function Messages(s: string): seq<Message> {
    var body := if s != "" && s[0] == '\U{FEFF}' then s[1..] else s;
    Run(Parser("", false, "", "", "", []), body).out
  }

  lemma {:induction false} RunAppend(p: Parser, a: string, b: string)
    ensures Run(p, a + b) == Run(Run(p, a), b)
    decreases |a|
  {
    if a == "" {
      assert a + b == b;
    } else {
      assert (a + b)[1..] == a[1..] + b;
      RunAppend(Feed(p, a[0]), a[1..], b);
    }
  }

  lemma {:induction false} RunWithinLine(p: Parser, s: string)
    requires OneLine(s) && !p.afterCR
    ensures Run(p, s) == p.(partial := p.partial + s)
    decreases |s|
  {
    if s == "" {
      assert p.partial + s == p.partial;
    } else {
      RunWithinLine(Feed(p, s[0]), s[1..]);
      assert p.partial + [s[0]] + s[1..] == p.partial + s;
    }
  }

  lemma RunLine(p: Parser, line: string)
    requires OneLine(line) && p.partial == "" && !p.afterCR
    ensures Run(p, line + "\n") == OnLine(p, line)
  {
    RunAppend(p, line, "\n");
    RunWithinLine(p, line);
    assert "" + line == line;
    var q := p.(partial := line);
    assert "\n"[1..] == "";
    assert Run(q, "\n") == Feed(q, '\n');
    assert q.(partial := "") == p;
  }

  lemma FirstColonAt(line: string, i: nat)
    requires i < |line| && line[i] == ':' && ':' !in line[..i]
    ensures FirstColon(line) == i
  {
  }

  lemma OnFieldLine(p: Parser, name: string, value: string)
    requires name != "" && ':' !in name
    ensures OnLine(p, name + ": " + value) == Field(p, name, value)
  {
    var line := name + ": " + value;
    assert line[..|name|] == name;
    FirstColonAt(line, |name|);
    assert line[|name| + 1..] == " " + value;
    assert AfterSpace(" " + value) == value by {
      assert (" " + value)[1..] == value;
    }
  }

  lemma RunField(p: Parser, name: string, value: string)
    requires name != "" && ':' !in name && OneLine(name) && OneLine(value) && p.partial == "" && !p.afterCR
    ensures Run(p, Line(name, value)) == Field(p, name, value)
  {
    RunLine(p, name + ": " + value);
    OnFieldLine(p, name, value);
  }

  /** The id a reader remembers after a frame. */
  function IDAfter(id: string, e: Event): string {
    if e.id == "" then id else Sanitize(e.id)
  }

  function AsMessage(e: Event, id: string): Message {
    Message(if e.eventType == "" then "message" else Sanitize(e.eventType), e.payload, IDAfter(id, e))
  }

  lemma RunIdLine(p: Parser, e: Event)
    requires p.partial == "" && !p.afterCR
    ensures Run(p, IdLine(e.id)) == p.(id := IDAfter(p.id, e))
  {
    if e.id != "" {
      RunField(p, "id", Sanitize(e.id));
    }
  }

  lemma RunFields(p: Parser, e: Event)
    requires p.partial == "" && !p.afterCR && p.data == "" && OneLine(e.payload)
    ensures Run(p, IdLine(e.id) + Line("event", Sanitize(e.eventType)) + Line("data", e.payload))
         == p.(id := IDAfter(p.id, e), eventType := Sanitize(e.eventType), data := e.payload + "\n")
  {
    var eventLine, dataLine := Line("event", Sanitize(e.eventType)), Line("data", e.payload);
    var p1 := p.(id := IDAfter(p.id, e));
    var p2 := p1.(eventType := Sanitize(e.eventType));
    RunAppend(p, IdLine(e.id) + eventLine, dataLine);
    RunAppend(p, IdLine(e.id), eventLine);
    RunIdLine(p, e);
    RunField(p1, "event", Sanitize(e.eventType));
    RunField(p2, "data", e.payload);
    assert "" + e.payload == e.payload;
  }

  lemma RunFrame(p: Parser, e: Event)
    requires p.partial == "" && !p.afterCR && p.eventType == "" && p.data == "" && OneLine(e.payload)
    ensures Run(p, Frame(e)) == p.(id := IDAfter(p.id, e), out := p.out + [AsMessage(e, p.id)])
  {
    var q := p.(id := IDAfter(p.id, e), eventType := Sanitize(e.eventType), data := e.payload + "\n");
    RunAppend(p, IdLine(e.id) + Line("event", Sanitize(e.eventType)) + Line("data", e.payload), "\n");
    RunFields(p, e);
    RunLine(q, "");
    assert "" + "\n" == "\n";
    assert q.data[..|q.data| - 1] == e.payload;
  }

  function LastID(es: seq<Event>, n: nat): string
    requires n <= |es|
  {
    if n == 0 then "" else IDAfter(LastID(es, n - 1), es[n - 1])
  }

  function AsMessages(es: seq<Event>, n: nat): seq<Message>
    requires n <= |es|
  {
    if n == 0 then [] else AsMessages(es, n - 1) + [AsMessage(es[n - 1], LastID(es, n - 1))]
  }

  lemma {:induction false} RunFrames(es: seq<Event>, n: nat)
    requires n <= |es| && forall i :: 0 <= i < n ==> OneLine(es[i].payload)
    ensures Run(Parser("", false, "", "", "", []), Frames(es, n))
        == Parser("", false, "", "", LastID(es, n), AsMessages(es, n))
  {
    if n > 0 {
      RunFrames(es, n - 1);
      RunAppend(Parser("", false, "", "", "", []), Frames(es, n - 1), Frame(es[n - 1]));
      RunFrame(Parser("", false, "", "", LastID(es, n - 1), AsMessages(es, n - 1)), es[n - 1]);
    }
  }

  lemma FrameStart(e: Event)
    ensures Frame(e) != "" && Frame(e)[0] in "ie"
  {
  }

  lemma {:induction false} FramesStart(es: seq<Event>, n: nat)
    requires 0 < n <= |es|
    ensures Frames(es, n) != "" && Frames(es, n)[0] in "ie"
  {
    FrameStart(es[n - 1]);
    if n > 1 {
      FramesStart(es, n - 1);
    } else {
      assert Frames(es, 0) + Frame(es[0]) == Frame(es[0]);
    }
  }

  /** Whatever its id and type hold, line ends included, every frame is exactly one message
      to a reader that follows the standard: with the sanitised type, the payload, and the
      sanitised id of this frame or the last one that had one. */
  lemma OneMessagePerFrame(es: seq<Event>)
    requires forall i :: 0 <= i < |es| ==> OneLine(es[i].payload)
    ensures Messages(Frames(es, |es|)) == AsMessages(es, |es|)
  {
    RunFrames(es, |es|);
    if es != [] {
      FramesStart(es, |es|);
    }
  }
}
