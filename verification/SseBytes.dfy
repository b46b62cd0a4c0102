/** The client's reader on the bytes of the connection: texts travel as UTF-8 (RFC 3629,
    section 3), lines end at the byte of a line feed, and a connection can break inside a
    character. */
module SseBytes {
  import opened Wrappers
  import opened Bytes
  import opened Sse
  import opened Utf8

  /** No line end among the bytes. */
  predicate Inside(bs: seq<Byte>) {
    forall i :: 0 <= i < |bs| ==> bs[i] != NL && bs[i] != CR
  }

  predicate ReadsBack(text: seq<Byte> -> string, s: string) {
    text(Encode(s)) == s
  }

  predicate ReadsSome(text: seq<Byte> -> string, bs: seq<Byte>) {
    bs != [] && Inside(bs) ==> TrimEOL(text(bs)) != ""
  }

  /** A way of reading the bytes of a line: UTF-8 as what it encodes, and bytes without line
      ends, whatever they are, not as an empty line. */
  ghost predicate ReadsUtf8(text: seq<Byte> -> string) {
    (forall s :: ReadsBack(text, s)) && (forall bs :: ReadsSome(text, bs))
  }

  /** The client between two bytes: the line it is in, and the rest as before. */
  datatype ByteClient<E> = ByteClient(line: seq<Byte>, rest: Client<E>)

  function FeedByte<E>(c: ByteClient<E>, b: Byte, text: seq<Byte> -> string, decode: string -> Option<E>): ByteClient<E> {
    if b == NL then ByteClient([], OnLine(c.rest, text(c.line), decode)) else ByteClient(c.line + [b], c.rest)
  }

  function RunBytes<E>(c: ByteClient<E>, bs: seq<Byte>, text: seq<Byte> -> string, decode: string -> Option<E>):
    ByteClient<E>
  {
    if bs == [] then c else FeedByte(RunBytes(c, bs[..|bs| - 1], text, decode), bs[|bs| - 1], text, decode)
  }

  function NewByteClient<E>(): ByteClient<E> {
    ByteClient([], NewClient())
  }

  /** What the client has emitted when the connection ends after `bs`. */
  function ReceivedBytes<E>(bs: seq<Byte>, text: seq<Byte> -> string, decode: string -> Option<E>): seq<E> {
    var c := RunBytes(NewByteClient(), bs, text, decode);
    if c.line == [] then c.rest.out else OnLine(c.rest, text(c.line), decode).out
  }

  /** Bytes without a line feed join the line the client is in. */
  lemma {:induction false} RunWithinBytes<E>(c: ByteClient<E>, a: seq<Byte>, b: seq<Byte>, text: seq<Byte> -> string,
      decode: string -> Option<E>)
    requires NL !in b
    ensures var before := RunBytes(c, a, text, decode);
      RunBytes(c, a + b, text, decode) == ByteClient(before.line + b, before.rest)
  {
    var before := RunBytes(c, a, text, decode);
    if b == [] {
      assert a + b == a && before.line + b == before.line;
    } else {
      var front, last := b[..|b| - 1], b[|b| - 1];
      RunWithinBytes(c, a, front, text, decode);
      assert (a + b)[..|a + b| - 1] == a + front && (a + b)[|a + b| - 1] == last;
      assert before.line + front + [last] == before.line + b;
    }
  }

  /** The client on bytes goes along with the client on characters. */
  ghost predicate Alike<E>(c: ByteClient<E>, d: Client<E>) {
    c.rest == d.(partial := "") && c.line == Encode(d.partial)
  }

  lemma FeedAlike<E>(bs: seq<Byte>, d: Client<E>, ch: char, text: seq<Byte> -> string, decode: string -> Option<E>)
    requires ReadsUtf8(text) && Alike(RunBytes(NewByteClient(), bs, text, decode), d)
    ensures Alike(RunBytes(NewByteClient(), bs + EncodeChar(ch), text, decode), Feed(d, ch, decode))
  {
    var c, more := RunBytes(NewByteClient(), bs, text, decode), EncodeChar(ch);
    if ch == '\n' {
      assert more == [NL];
      assert (bs + more)[..|bs|] == bs;
      assert ReadsBack(text, d.partial);
      OnLineLeavesLine(d.(partial := ""), d.partial, decode);
    } else {
      RunWithinBytes(NewByteClient(), bs, more, text, decode);
      var after := d.partial + [ch];
      assert after[..|after| - 1] == d.partial;
    }
  }

  lemma OnLineLeavesLine<E>(c: Client<E>, line: string, decode: string -> Option<E>)
    ensures OnLine(c, line, decode).partial == c.partial
  {
  }

  lemma RunSnoc<E>(front: string, ch: char, decode: string -> Option<E>)
    ensures Run(NewClient(), front + [ch], decode) == Feed(Run(NewClient(), front, decode), ch, decode)
  {
    RunAppend(NewClient(), front, [ch], decode);
    assert [ch][1..] == "";
  }

  lemma SnocAlike<E>(front: string, ch: char, text: seq<Byte> -> string, decode: string -> Option<E>)
    requires ReadsUtf8(text)
    requires Alike(RunBytes(NewByteClient(), Encode(front), text, decode), Run(NewClient(), front, decode))
    ensures Alike(RunBytes(NewByteClient(), Encode(front) + EncodeChar(ch), text, decode),
        Run(NewClient(), front + [ch], decode))
  {
    FeedAlike(Encode(front), Run(NewClient(), front, decode), ch, text, decode);
    RunSnoc(front, ch, decode);
  }

  lemma {:induction false} RunAlike<E>(s: string, text: seq<Byte> -> string, decode: string -> Option<E>)
    requires ReadsUtf8(text)
    ensures Alike(RunBytes(NewByteClient(), Encode(s), text, decode), Run(NewClient(), s, decode))
  {
    if s != "" {
      var front, ch := s[..|s| - 1], s[|s| - 1];
      RunAlike(front, text, decode);
      SnocAlike(front, ch, text, decode);
      assert s == front + [ch];
    }
  }

  /** A front of an encoding is the encoding of a front and a front of one character. */
  lemma {:induction false} CutEncoding(s: string, k: nat) returns (j: nat, cut: seq<Byte>)
    requires k <= |Encode(s)|
    ensures j <= |s| && Encode(s)[..k] == Encode(s[..j]) + cut
    ensures cut != [] ==> j < |s| && cut < EncodeChar(s[j])
  {
    if k == |Encode(s)| {
      j, cut := |s|, [];
      assert s[..j] == s && Encode(s) + [] == Encode(s);
    } else {
      var front, last := s[..|s| - 1], s[|s| - 1];
      if k < |Encode(front)| {
        j, cut := CutEncoding(front, k);
        assert Encode(s)[..k] == Encode(front)[..k] && s[..j] == front[..j];
      } else {
        j, cut := |front|, EncodeChar(last)[..k - |Encode(front)|];
        assert Encode(s)[..k] == Encode(front) + cut;
      }
    }
  }

  lemma CutIsInside(c: char, cut: seq<Byte>)
    requires cut < EncodeChar(c)
    ensures Inside(cut)
  {
  }

  lemma {:induction false} EncodeInside(s: string)
    requires OneLine(s)
    ensures Inside(Encode(s))
  {
    if s != "" {
      EncodeInside(s[..|s| - 1]);
    }
  }

  /** An unfinished line emits nothing. */
  lemma UnfinishedLine<E>(c: ByteClient<E>, text: seq<Byte> -> string, decode: string -> Option<E>)
    requires ReadsUtf8(text) && Inside(c.line) && c.line != []
    ensures OnLine(c.rest, text(c.line), decode).out == c.rest.out
  {
    assert ReadsSome(text, c.line);
  }

  /** What the bytes of a front of the frames hold is what their whole characters do. */
  lemma ReceivedOfCut<E>(s: string, cut: seq<Byte>, text: seq<Byte> -> string, decode: string -> Option<E>)
    requires ReadsUtf8(text) && '\r' !in s && Inside(cut)
    ensures ReceivedBytes(Encode(s) + cut, text, decode) == Run(NewClient(), s, decode).out == Received(s, decode)
  {
    RunAlike(s, text, decode);
    RunWithinBytes(NewByteClient(), Encode(s), cut, text, decode);
    var d := Run(NewClient(), s, decode);
    PartialIsClean(NewClient(), s, decode);
    EncodeInside(d.partial);
    TrimEOLOfOneLine(d.partial);
    var c := RunBytes(NewByteClient(), Encode(s) + cut, text, decode);
    assert c.line == Encode(d.partial) + cut && c.rest.out == d.out;
    if c.line != [] {
      UnfinishedLine(c, text, decode);
    }
  }

  lemma RunFront<E>(all: string, j: nat, decode: string -> Option<E>)
    requires j <= |all|
    ensures Run(NewClient(), all[..j], decode).out <= Run(NewClient(), all, decode).out
  {
    assert all == all[..j] + all[j..];
    RunAppend(NewClient(), all[..j], all[j..], decode);
    OutGrows(Run(NewClient(), all[..j], decode), all[j..], decode);
  }

  /** Over any front of the bytes of a text the client emits a prefix of what it emits over
      the whole text. */
  lemma FrontOfText<E>(all: string, k: nat, text: seq<Byte> -> string, decode: string -> Option<E>)
    requires ReadsUtf8(text) && '\r' !in all && k <= |Encode(all)|
    ensures ReceivedBytes(Encode(all)[..k], text, decode) <= Run(NewClient(), all, decode).out
  {
    var j, cut := CutEncoding(all, k);
    if cut != [] {
      CutIsInside(all[j], cut);
    }
    ReceivedOfCut(all[..j], cut, text, decode);
    RunFront(all, j, decode);
  }

  lemma WholeText<E>(all: string, text: seq<Byte> -> string, decode: string -> Option<E>)
    requires ReadsUtf8(text) && '\r' !in all
    ensures ReceivedBytes(Encode(all), text, decode) == Run(NewClient(), all, decode).out
  {
    assert Encode(all) + [] == Encode(all);
    ReceivedOfCut(all, [], text, decode);
  }

  /** Over any front of the bytes of the frames, even one that breaks inside a character,
      the client emits a prefix of what the frames hold, and over all of them exactly that. */
  lemma FrontOfFrames<E>(es: seq<Event>, k: nat, text: seq<Byte> -> string, decode: string -> Option<E>)
    requires ReadsUtf8(text) && forall i :: 0 <= i < |es| ==> OneLine(es[i].payload)
    requires k <= |Encode(Frames(es, |es|))|
    ensures ReceivedBytes(Encode(Frames(es, |es|))[..k], text, decode) <= AllPassedOn(es, |es|, decode)
    ensures ReceivedBytes(Encode(Frames(es, |es|)), text, decode) == AllPassedOn(es, |es|, decode)
  {
    var all := Frames(es, |es|);
    FramesHaveNoCR(es, |es|);
    RunFrames(es, |es|, decode);
    FrontOfText(all, k, text, decode);
    WholeText(all, text, decode);
  }
}
