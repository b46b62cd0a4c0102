/** Server-sent events: the writer (httpapi/respond.go:12-55), the client's reader
    (cli/live_client.go:144-188), and the event-stream format of the WHATWG HTML Living
    Standard, sections 9.2.5 and 9.2.6, that both have to meet. Texts are sequences of
    characters; the JSON of a payload and its decoding are given. */
module Sse {
  import opened Wrappers
  import opened Text

  datatype Event = Event(id: string, eventType: string, payload: string)

  /** sanitizeSSEField. */
  function Sanitize(s: string): (r: string)
    ensures |r| == |s| && OneLine(r)
    ensures forall i :: 0 <= i < |s| ==> r[i] == if s[i] < ' ' then '_' else s[i]
  {
    seq(|s|, i requires 0 <= i < |s| => if s[i] < ' ' then '_' else s[i])
  }

  /** Without a raw line end. */
  predicate OneLine(s: string) {
    forall i :: 0 <= i < |s| ==> s[i] != '\n' && s[i] != '\r'
  }

  function Line(field: string, value: string): string {
    field + ": " + value + "\n"
  }

  function IdLine(id: string): string {
    if id == "" then "" else Line("id", Sanitize(id))
  }

  function Frame(e: Event): string {
    IdLine(e.id) + Line("event", Sanitize(e.eventType)) + Line("data", e.payload) + "\n"
  }

  /** The first `n` frames, one after the other. */
  function Frames(es: seq<Event>, n: nat): string
    requires n <= |es|
  {
    if n == 0 then "" else Frames(es, n - 1) + Frame(es[n - 1])
  }

  /** bytes already handed to a connection that may break at any write. */
  class Connection {
    var sent: string

    method Write(s: string) returns (ok: bool)
      modifies this
      ensures if ok then sent == old(sent) + s else old(sent) <= sent <= old(sent) + s
    {
      if * {
        var n: nat :| n <= |s|;
        sent := sent + s[..n];
        return false;
      }
      sent := sent + s;
      return true;
    }
  }

  /** writeSSE: one frame, or, if the connection breaks, a front of it. */
  method WriteSSE(w: Connection, e: Event) returns (ok: bool)
    modifies w
    ensures if ok then w.sent == old(w.sent) + Frame(e) else old(w.sent) <= w.sent <= old(w.sent) + Frame(e)
  {
    ghost var before := w.sent;
    var rest := Line("event", Sanitize(e.eventType)) + Line("data", e.payload) + "\n";
    assert Frame(e) == IdLine(e.id) + rest;
    if e.id != "" {
      ok := w.Write(Line("id", Sanitize(e.id)));
      if !ok {
        return;
      }
    }
    assert w.sent == before + IdLine(e.id);
    ok := w.Write(rest);
    assert before + IdLine(e.id) + rest == before + Frame(e);
  }

  /** strings.TrimRight(line, "\r\n"). */
  function TrimEOL(line: string): string {
    if line != "" && line[|line| - 1] in "\r\n" then TrimEOL(line[..|line| - 1]) else line
  }

  lemma TrimEOLOfOneLine(line: string)
    requires OneLine(line)
    ensures TrimEOL(line) == line
  {
  }

  /** Frame types the client does not pass on. */
  predicate Control(eventType: string) {
    eventType in {"", "hello", "ping", "resync_required", "replay.error"}
  }

  function AfterSpace(s: string): string {
    if s != "" && s[0] == ' ' then s[1..] else s
  }

  function Join(lines: seq<string>): string {
    if |lines| == 0 then "" else if |lines| == 1 then lines[0]
        else Join(lines[..|lines| - 1]) + "\n" + lines[|lines| - 1]
  }

  /** The client between two characters: the line it is in, the fields of the frame so far,
      and what it has emitted. `decode` yields the typed live events. */
  datatype Client<E> = Client(partial: string, eventType: string, data: seq<string>, out: seq<E>)

  function Decoded<E>(eventType: string, data: seq<string>, decode: string -> Option<E>): seq<E> {
    if Control(eventType) || data == [] || decode(Join(data)).None? then [] else [decode(Join(data)).value]
  }

  /** dispatch. */
  function Dispatched<E>(c: Client<E>, decode: string -> Option<E>): Client<E> {
    c.(eventType := "", data := [], out := c.out + Decoded(c.eventType, c.data, decode))
  }

  /** The effect of one line. */
  function OnLine<E>(c: Client<E>, line: string, decode: string -> Option<E>): Client<E> {
    var t := TrimEOL(line);
    if t == "" then Dispatched(c, decode)
    else if ":" <= t then c
    else if "event:" <= t then c.(eventType := TrimSpace(t[6..]))
    else if "data:" <= t then c.(data := c.data + [AfterSpace(t[5..])])
    else c
  }

  function Feed<E>(c: Client<E>, ch: char, decode: string -> Option<E>): Client<E> {
    if ch == '\n' then OnLine(c.(partial := ""), c.partial, decode) else c.(partial := c.partial + [ch])
  }

  function Run<E>(c: Client<E>, s: string, decode: string -> Option<E>): Client<E>
    decreases |s|
  {
    if s == "" then c else Run(Feed(c, s[0], decode), s[1..], decode)
  }

  function NewClient<E>(): Client<E> {
    Client("", "", [], [])
  }

  /** What the client has emitted when the stream ends after `s`: its last line may lack
      its end. */
  function Received<E>(s: string, decode: string -> Option<E>): seq<E> {
    var c := Run(NewClient(), s, decode);
    if c.partial == "" then c.out else OnLine(c.(partial := ""), c.partial, decode).out
  }

  lemma {:induction false} RunAppend<E>(c: Client<E>, a: string, b: string, decode: string -> Option<E>)
    ensures Run(c, a + b, decode) == Run(Run(c, a, decode), b, decode)
    decreases |a|
  {
    if a == "" {
      assert a + b == b;
    } else {
      assert (a + b)[1..] == a[1..] + b;
      RunAppend(Feed(c, a[0], decode), a[1..], b, decode);
    }
  }

  lemma {:induction false} RunWithinLine<E>(c: Client<E>, s: string, decode: string -> Option<E>)
    requires '\n' !in s
    ensures Run(c, s, decode) == c.(partial := c.partial + s)
    decreases |s|
  {
    if s == "" {
      assert c.partial + s == c.partial;
    } else {
      RunWithinLine(Feed(c, s[0], decode), s[1..], decode);
      assert c.partial + [s[0]] + s[1..] == c.partial + s;
    }
  }

  lemma RunWholeLine<E>(c: Client<E>, text: string, decode: string -> Option<E>)
    requires c.partial == "" && '\n' !in text
    ensures Run(c, text + "\n", decode) == OnLine(c, text, decode)
  {
    RunAppend(c, text, "\n", decode);
    RunWithinLine(c, text, decode);
    assert "" + text == text;
    var d := c.(partial := text);
    assert "\n"[1..] == "";
    assert Run(d, "\n", decode) == Feed(d, '\n', decode);
    assert d.(partial := "") == c;
  }

  lemma OnIdLine<E>(c: Client<E>, value: string, decode: string -> Option<E>)
    requires OneLine(value)
    ensures OnLine(c, "id: " + value, decode) == c
  {
  }

  lemma OnEventLine<E>(c: Client<E>, value: string, decode: string -> Option<E>)
    requires OneLine(value)
    ensures OnLine(c, "event: " + value, decode) == c.(eventType := TrimSpace(value))
  {
    var line := "event: " + value;
    assert OneLine(line);
    TrimEOLOfOneLine(line);
    assert line[0] == 'e';
    assert line[..6] == "event:";
    assert line[6..] == " " + value;
    assert (" " + value)[1..] == value;
    assert TrimLeft(" " + value) == TrimLeft(value);
  }

  lemma OnDataLine<E>(c: Client<E>, value: string, decode: string -> Option<E>)
    requires OneLine(value)
    ensures OnLine(c, "data: " + value, decode) == c.(data := c.data + [value])
  {
    var line := "data: " + value;
    assert OneLine(line);
    TrimEOLOfOneLine(line);
    assert line[0] == 'd' && line[1] == 'a';
    assert line[..5] == "data:";
    assert line[5..] == " " + value;
    assert AfterSpace(" " + value) == value by {
      assert (" " + value)[1..] == value;
    }
  }

  lemma RunFields<E>(c: Client<E>, e: Event, decode: string -> Option<E>)
    requires c.partial == "" && c.data == [] && OneLine(e.payload)
    ensures Run(c, IdLine(e.id) + Line("event", Sanitize(e.eventType)) + Line("data", e.payload), decode)
         == c.(eventType := TrimSpace(Sanitize(e.eventType)), data := [e.payload])
  {
    var eventLine, dataLine := Line("event", Sanitize(e.eventType)), Line("data", e.payload);
    RunAppend(c, IdLine(e.id) + eventLine, dataLine, decode);
    RunAppend(c, IdLine(e.id), eventLine, decode);
    assert Run(c, IdLine(e.id), decode) == c by {
      if e.id != "" {
        assert "id" + ": " + Sanitize(e.id) == "id: " + Sanitize(e.id);
        RunWholeLine(c, "id: " + Sanitize(e.id), decode);
        OnIdLine(c, Sanitize(e.id), decode);
      }
    }
    assert Run(c, eventLine, decode) == c.(eventType := TrimSpace(Sanitize(e.eventType))) by {
      assert "event" + ": " + Sanitize(e.eventType) == "event: " + Sanitize(e.eventType);
      RunWholeLine(c, "event: " + Sanitize(e.eventType), decode);
      OnEventLine(c, Sanitize(e.eventType), decode);
    }
    var d := c.(eventType := TrimSpace(Sanitize(e.eventType)));
    assert "data" + ": " + e.payload == "data: " + e.payload;
    RunWholeLine(d, "data: " + e.payload, decode);
    OnDataLine(d, e.payload, decode);
    assert [] + [e.payload] == [e.payload];
  }

  /** What the client passes on of a frame: nothing of a control frame, else its payload. */
  function PassedOn<E>(e: Event, decode: string -> Option<E>): seq<E> {
    if Control(TrimSpace(Sanitize(e.eventType))) || decode(e.payload).None? then [] else [decode(e.payload).value]
  }

  lemma RunFrame<E>(c: Client<E>, e: Event, decode: string -> Option<E>)
    requires c.partial == "" && c.eventType == "" && c.data == [] && OneLine(e.payload)
    ensures Run(c, Frame(e), decode) == c.(out := c.out + PassedOn(e, decode))
  {
    var fields := IdLine(e.id) + Line("event", Sanitize(e.eventType)) + Line("data", e.payload);
    RunFields(c, e, decode);
    RunAppend(c, fields, "\n", decode);
    var d := c.(eventType := TrimSpace(Sanitize(e.eventType)), data := [e.payload]);
    RunWholeLine(d, "", decode);
    assert "" + "\n" == "\n";
    assert Join([e.payload]) == e.payload;
  }

  function AllPassedOn<E>(es: seq<Event>, n: nat, decode: string -> Option<E>): seq<E>
    requires n <= |es|
  {
    if n == 0 then [] else AllPassedOn(es, n - 1, decode) + PassedOn(es[n - 1], decode)
  }

  lemma RunNextFrame<E>(before: string, e: Event, out: seq<E>, decode: string -> Option<E>)
    requires Run(NewClient(), before, decode) == Client("", "", [], out) && OneLine(e.payload)
    ensures Run(NewClient(), before + Frame(e), decode) == Client("", "", [], out + PassedOn(e, decode))
  {
    RunAppend(NewClient(), before, Frame(e), decode);
    RunFrame(Client("", "", [], out), e, decode);
  }

  lemma {:induction false} RunFrames<E>(es: seq<Event>, n: nat, decode: string -> Option<E>)
    requires n <= |es| && forall i :: 0 <= i < n ==> OneLine(es[i].payload)
    ensures Run(NewClient(), Frames(es, n), decode) == Client("", "", [], AllPassedOn(es, n, decode))
  {
    if n > 0 {
      RunFrames(es, n - 1, decode);
      RunNextFrame(Frames(es, n - 1), es[n - 1], AllPassedOn(es, n - 1, decode), decode);
    }
  }

  /** Round trip: over concatenated frames the client emits exactly the payloads of the
      frames that are not control frames, in order, whatever their ids and types. */
  lemma FramesRoundTrip<E>(es: seq<Event>, decode: string -> Option<E>)
    requires forall i :: 0 <= i < |es| ==> OneLine(es[i].payload)
    ensures Received(Frames(es, |es|), decode) == AllPassedOn(es, |es|, decode)
  {
    RunFrames(es, |es|, decode);
  }

  lemma {:induction false} OutGrows<E>(c: Client<E>, s: string, decode: string -> Option<E>)
    ensures c.out <= Run(c, s, decode).out
    decreases |s|
  {
    if s != "" {
      OutGrows(Feed(c, s[0], decode), s[1..], decode);
    }
  }

  /** The line the client is in is the end of what it has read. */
  lemma {:induction false} PartialIsClean<E>(c: Client<E>, s: string, decode: string -> Option<E>)
    requires OneLine(c.partial) && '\r' !in s
    ensures OneLine(Run(c, s, decode).partial)
    decreases |s|
  {
    if s != "" {
      PartialIsClean(Feed(c, s[0], decode), s[1..], decode);
    }
  }

  lemma {:induction false} FramesHaveNoCR(es: seq<Event>, n: nat)
    requires n <= |es| && forall i :: 0 <= i < n ==> OneLine(es[i].payload)
    ensures '\r' !in Frames(es, n)
  {
    if n > 0 {
      FramesHaveNoCR(es, n - 1);
      FrameHasNoCR(es[n - 1]);
    }
  }

  lemma FrameHasNoCR(e: Event)
    requires OneLine(e.payload)
    ensures '\r' !in Frame(e)
  {
  }

  lemma TrimWithEnd(line: string)
    ensures TrimEOL(line + "\n") == TrimEOL(line)
  {
  }

  /** bufio's ReadString('\n') on the content from `at`: a line with its end, or what is
      left of the content, or, when the connection breaks, what had come of the line. */
  method ReadString(body: string, at: nat) returns (line: string, broken: bool)
    requires at <= |body|
    ensures at + |line| <= |body| && line == body[at..at + |line|]
    ensures (line != "" && OneEnd(line)) || '\n' !in line
    ensures '\n' !in line && !broken ==> at + |line| == |body|
  {
    var end := at;
    broken := false;
    while !broken && end < |body| && body[end] != '\n'
      invariant at <= end <= |body| && forall i :: at <= i < end ==> body[i] != '\n'
      decreases !broken, |body| - end
    {
      if * {
        broken := true;
      } else {
        end := end + 1;
      }
    }
    line := body[at..end];
    if !broken && end < |body| {
      assert body[at..end + 1] == line + "\n";
      line := body[at..end + 1];
    }
  }

  predicate OneEnd(line: string)
    requires line != ""
  {
    line[|line| - 1] == '\n' && '\n' !in line[..|line| - 1]
  }

  /** Reading one more complete line. */
  lemma RunNextLine<E>(before: string, line: string, eventType: string, data: seq<string>, out: seq<E>,
      decode: string -> Option<E>)
    requires line != "" && OneEnd(line)
    requires Run(NewClient(), before, decode) == Client("", eventType, data, out)
    ensures Run(NewClient(), before + line, decode) == OnLine(Client("", eventType, data, out), line, decode)
  {
    var c, text := Client("", eventType, data, out), line[..|line| - 1];
    RunAppend(NewClient(), before, line, decode);
    assert line == text + "\n";
    RunWholeLine(c, text, decode);
    TrimWithEnd(text);
  }

  lemma RunLastLine<E>(before: string, line: string, eventType: string, data: seq<string>, out: seq<E>,
      decode: string -> Option<E>)
    requires '\n' !in line && Run(NewClient(), before, decode) == Client("", eventType, data, out)
    ensures Received(before + line, decode) == if line == "" then out
        else OnLine(Client("", eventType, data, out), line, decode).out
  {
    RunAppend(NewClient(), before, line, decode);
    RunWithinLine(Client("", eventType, data, out), line, decode);
    assert "" + line == line;
  }

  /** The switch over one line; `out` grows when the line dispatches a frame. */
  method TakeLine<E>(line: string, eventType: string, data: seq<string>, out: seq<E>, decode: string -> Option<E>)
    returns (eventTypeAfter: string, dataAfter: seq<string>, outAfter: seq<E>)
    ensures Client("", eventTypeAfter, dataAfter, outAfter) == OnLine(Client("", eventType, data, out), line, decode)
    ensures out <= outAfter && |outAfter| <= |out| + 1
  {
    eventTypeAfter, dataAfter, outAfter := eventType, data, out;
    var trimmed := TrimEOL(line);
    if trimmed == "" {
      eventTypeAfter, dataAfter := "", [];
      if !Control(eventType) && |data| > 0 {
        var e := decode(Join(data));
        if e.Some? {
          outAfter := out + [e.value];
        }
      }
    } else if ":" <= trimmed {
    } else if "event:" <= trimmed {
      eventTypeAfter := TrimSpace(trimmed[6..]);
    } else if "data:" <= trimmed {
      dataAfter := data + [AfterSpace(trimmed[5..])];
    }
  }

  /** consumeSSE: having read `read` characters it has emitted exactly what they hold, or,
      if emitting fails, a front of it; without a failure it reads to the end. */
  method ConsumeSSE<E>(body: string, decode: string -> Option<E>)
      returns (emitted: seq<E>, read: nat, broken: bool, refused: bool)
    ensures read <= |body| && (!broken && !refused ==> read == |body|)
    ensures if refused then emitted <= Received(body[..read], decode) else emitted == Received(body[..read], decode)
  {
    var eventType, data := "", [];
    emitted, read := [], 0;
    while true
      invariant read <= |body|
      invariant Run(NewClient(), body[..read], decode) == Client("", eventType, data, emitted)
      decreases |body| - read
    {
      var line, failed := ReadString(body, read);
      ghost var before := emitted;
      var out := emitted;
      ghost var wasType, wasData := eventType, data;
      if |line| > 0 {
        eventType, data, out := TakeLine(line, eventType, data, emitted, decode);
      }
      assert body[..read + |line|] == body[..read] + line;
      var whole := |line| > 0 && line[|line| - 1] == '\n';
      if whole {
        RunNextLine(body[..read], line, wasType, wasData, before, decode);
      } else {
        RunLastLine(body[..read], line, wasType, wasData, before, decode);
      }
      read := read + |line|;
      if |out| > |emitted| {
        if * {
          if whole {
            assert Received(body[..read], decode) == out;
          }
          return emitted, read, false, true;
        }
        emitted := out;
      }
      assert emitted == out;
      if !whole {
        return emitted, read, failed, false;
      }
    }
  }
}
