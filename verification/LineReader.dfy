/** The JSONL line reader (collector/scanutil.go:151-202) over a buffered reader that hands
    out a line in any number of fragments. */
module LineReader {
  import opened Bytes
  import opened Wrappers

  datatype Visit = Visit(lineNo: nat, byteOffset: nat, line: seq<Byte>)

  /** bytes.TrimRight(line, "\r\n"). */
  function TrimRight(line: seq<Byte>): (r: seq<Byte>)
    ensures r <= line && (r != [] ==> r[|r| - 1] != NL && r[|r| - 1] != CR)
    ensures forall i :: |r| <= i < |line| ==> line[i] == NL || line[i] == CR
  {
    if line != [] && line[|line| - 1] in {NL, CR} then TrimRight(line[..|line| - 1]) else line
  }

  /** The end of the line that begins at `start`, its newline included. */
  function LineEnd(data: seq<Byte>, start: nat): (end: nat)
    requires start <= |data|
    ensures start <= end <= |data| && (start < |data| ==> start < end)
    ensures forall i :: start <= i < end - 1 ==> data[i] != NL
    ensures end == |data| || data[end - 1] == NL
    decreases |data| - start
  {
    if start == |data| then start
    else if data[start] == NL then start + 1
    else LineEnd(data, start + 1)
  }

  /** The specification: the lines from `start` on that are not blank, numbered after `n`. */
  function VisitsFrom(data: seq<Byte>, start: nat, n: nat): seq<Visit>
    requires start <= |data|
    decreases |data| - start
  {
    if start == |data| then []
    else
      var end := LineEnd(data, start);
      var line := TrimRight(data[start..end]);
      if line == [] then VisitsFrom(data, end, n)
      else [Visit(n + 1, start, line)] + VisitsFrom(data, end, n + 1)
  }

  predicate StartsLine(data: seq<Byte>, i: nat) {
    i < |data| && (i == 0 || data[i - 1] == NL)
  }

  /** What a visit promises: the true start of a line, whose content begins with the visited
      line, without a newline, and goes on with nothing but line-end bytes. */
  predicate VisitOk(data: seq<Byte>, v: Visit) {
    && StartsLine(data, v.byteOffset)
    && v.line != [] && v.line <= data[v.byteOffset..]
    && NL !in v.line
    && v.line == TrimRight(data[v.byteOffset..LineEnd(data, v.byteOffset)])
  }

  lemma {:induction false} VisitsAreOk(data: seq<Byte>, start: nat, n: nat, k: nat)
    requires start <= |data| && (start == |data| || StartsLine(data, start)) && k < |VisitsFrom(data, start, n)|
    ensures var v := VisitsFrom(data, start, n)[k]; v.lineNo == n + 1 + k && v.byteOffset >= start && VisitOk(data, v)
    decreases |data| - start
  {
    var end := LineEnd(data, start);
    var line := TrimRight(data[start..end]);
    if line == [] {
      VisitsAreOk(data, end, n, k);
    } else if k > 0 {
      VisitsAreOk(data, end, n + 1, k - 1);
    } else {
      forall i | 0 <= i < |line| ensures line[i] != NL && line[i] == data[start + i] {
        assert line[i] == data[start..end][i];
        if i == end - start - 1 {
          assert line[i] == line[|line| - 1];
        }
      }
    }
  }

  ghost predicate Visited(visits: seq<Visit>, i: nat) {
    exists k :: 0 <= k < |visits| && visits[k].byteOffset == i
  }

  lemma VisitedFirst(v: Visit, rest: seq<Visit>, i: nat)
    ensures Visited([v] + rest, i) <==> v.byteOffset == i || Visited(rest, i)
  {
    var all := [v] + rest;
    assert all[0] == v;
    if k :| 0 <= k < |rest| && rest[k].byteOffset == i {
      assert all[k + 1].byteOffset == i;
    }
    if k :| 0 <= k < |all| && all[k].byteOffset == i && k > 0 {
      assert rest[k - 1].byteOffset == i;
    }
  }

  lemma NotVisitedLater(data: seq<Byte>, start: nat, n: nat, i: nat)
    requires i < start <= |data| && (start == |data| || StartsLine(data, start))
    ensures !Visited(VisitsFrom(data, start, n), i)
  {
    forall k | 0 <= k < |VisitsFrom(data, start, n)| ensures VisitsFrom(data, start, n)[k].byteOffset != i {
      VisitsAreOk(data, start, n, k);
    }
  }

  /** Every line that is not blank is visited: the visits' offsets are exactly the starts
      of such lines. */
  lemma {:induction false} VisitsAreComplete(data: seq<Byte>, start: nat, n: nat, i: nat)
    requires start <= i && StartsLine(data, i) && StartsLine(data, start)
    ensures TrimRight(data[i..LineEnd(data, i)]) != [] <==> Visited(VisitsFrom(data, start, n), i)
    decreases |data| - start
  {
    var end := LineEnd(data, start);
    var line := TrimRight(data[start..end]);
    var next := if line == [] then n else n + 1;
    var rest := VisitsFrom(data, end, next);
    if line != [] {
      VisitedFirst(Visit(n + 1, start, line), rest, i);
    }
    if i == start {
      NotVisitedLater(data, end, next, i);
    } else {
      assert i >= end by {
        assert data[i - 1] == NL;
      }
      VisitsAreComplete(data, end, next, i);
    }
  }

  lemma {:induction false} VisitsIncrease(data: seq<Byte>, start: nat, n: nat, j: nat, k: nat)
    requires start <= |data| && (start == |data| || StartsLine(data, start)) && j < k < |VisitsFrom(data, start, n)|
    ensures VisitsFrom(data, start, n)[j].byteOffset < VisitsFrom(data, start, n)[k].byteOffset
    decreases |data| - start
  {
    var end := LineEnd(data, start);
    var line := TrimRight(data[start..end]);
    if line == [] {
      VisitsIncrease(data, end, n, j, k);
    } else {
      var rest := VisitsFrom(data, end, n + 1);
      assert VisitsFrom(data, start, n) == [Visit(n + 1, start, line)] + rest;
      if j > 0 {
        VisitsIncrease(data, end, n + 1, j - 1, k - 1);
      } else {
        VisitsAreOk(data, end, n + 1, k - 1);
      }
    }
  }

  /** One line with its newline, or, when cut short, bytes without any. */
  predicate IsLine(line: seq<Byte>, cut: bool) {
    if cut then NL !in line else line != [] && line[|line| - 1] == NL && NL !in line[..|line| - 1]
  }

  lemma LinesJoin(pending: seq<Byte>, fragment: seq<Byte>, cut: bool)
    requires NL !in pending && IsLine(fragment, cut)
    ensures IsLine(pending + fragment, cut)
  {
  }

  datatype ReadError = BufferFull | EOF | Broken

  /** A bufio.Reader over some content. */
  class Reader {
    const data: seq<Byte>
    var at: nat

    ghost predicate Valid()
      reads this
    {
      at <= |data|
    }

    constructor (data: seq<Byte>)
      ensures this.data == data && at == 0
    {
      this.data := data;
      at := 0;
    }

    /** ReadSlice('\n'): through the next newline; or, when the buffer fills or the content
        ends first, bytes without one; or nothing, when reading breaks. How much a full
        buffer holds is left open. */
    method ReadSlice() returns (fragment: seq<Byte>, err: Option<ReadError>)
      requires Valid()
      modifies this
      ensures Valid() && at == old(at) + |fragment| && fragment == data[old(at)..at]
      ensures err == Some(BufferFull) ==> fragment != []
      ensures IsLine(fragment, err.Some?)
      ensures err == Some(EOF) ==> at == |data|
    {
      fragment := [];
      while at < |data|
        invariant Valid() && old(at) <= at && fragment == data[old(at)..at] && NL !in fragment
      {
        var b := data[at];
        if * {
          return fragment, Some(if fragment != [] then BufferFull else Broken);
        }
        assert data[old(at)..at + 1] == data[old(at)..at] + [b];
        at := at + 1;
        fragment := fragment + [b];
        if b == NL {
          return fragment, None;
        }
      }
      return fragment, Some(EOF);
    }
  }

  lemma EndOfLine(data: seq<Byte>, start: nat, end: nat, line: seq<Byte>, atEnd: bool)
    requires start <= end <= |data| && line == data[start..end]
    requires IsLine(line, atEnd) && (atEnd ==> end == |data|)
    ensures LineEnd(data, start) == end
    ensures start == |data| ==> TrimRight(line) == []
  {
  }

  /** The specification moves past a line in one step. */
  lemma NextVisit(data: seq<Byte>, start: nat, end: nat, line: seq<Byte>, atEnd: bool, n: nat)
    requires start <= end <= |data| && line == data[start..end]
    requires IsLine(line, atEnd) && (atEnd ==> end == |data|)
    ensures VisitsFrom(data, start, n)
         == if TrimRight(line) == [] then VisitsFrom(data, end, n)
             else [Visit(n + 1, start, TrimRight(line))] + VisitsFrom(data, end, n + 1)
    ensures atEnd ==> VisitsFrom(data, end, n) == [] == VisitsFrom(data, end, n + 1)
  {
    EndOfLine(data, start, end, line, atEnd);
  }

  lemma Joined(data: seq<Byte>, i: nat, j: nat, k: nat)
    requires i <= j <= k <= |data|
    ensures data[i..k] == data[i..j] + data[j..k]
  {
  }

  lemma Shifted(visits: seq<Visit>, v: Visit, rest: seq<Visit>)
    ensures visits + ([v] + rest) == visits + [v] + rest
  {
  }

  /** The visits once a line has been looked at. */
  function WithLine(visits: seq<Visit>, n: nat, start: nat, line: seq<Byte>): seq<Visit> {
    if TrimRight(line) == [] then visits else visits + [Visit(n + 1, start, TrimRight(line))]
  }

  function NextNo(n: nat, line: seq<Byte>): nat {
    if TrimRight(line) == [] then n else n + 1
  }

  lemma LineDone(all: seq<Visit>, visits: seq<Visit>, data: seq<Byte>, start: nat, end: nat, line: seq<Byte>,
      atEnd: bool, n: nat)
    requires start <= end <= |data| && line == data[start..end]
    requires IsLine(line, atEnd) && (atEnd ==> end == |data|)
    requires all == visits + VisitsFrom(data, start, n)
    ensures all == WithLine(visits, n, start, line) + VisitsFrom(data, end, NextNo(n, line))
    ensures atEnd ==> all == WithLine(visits, n, start, line)
  {
    NextVisit(data, start, end, line, atEnd, n);
    if TrimRight(line) != [] {
      Shifted(visits, Visit(n + 1, start, TrimRight(line)), VisitsFrom(data, end, n + 1));
    }
  }

  /** Trimming a complete line and visiting it unless it is blank. */
  method VisitLine(visits: seq<Visit>, lineNo: nat, lineStart: nat, line: seq<Byte>)
      returns (after: seq<Visit>, no: nat)
    ensures after == WithLine(visits, lineNo, lineStart, line) && no == NextNo(lineNo, line)
  {
    after, no := visits, lineNo;
    var trimmed := TrimRight(line);
    if |trimmed| > 0 {
      no := no + 1;
      after := after + [Visit(no, lineStart, trimmed)];
    }
  }

  /** ReadJSONLLines: without an error the visits are exactly the specification's, however
      the reader cuts the content up; with one they are a prefix of it. */
  method ReadJSONLLines(reader: Reader) returns (visits: seq<Visit>, ok: bool)
    requires reader.at == 0
    modifies reader
    ensures ok ==> visits == VisitsFrom(reader.data, 0, 0)
    ensures visits <= VisitsFrom(reader.data, 0, 0)
  {
    ghost var all := VisitsFrom(reader.data, 0, 0);
    visits := [];
    var lineNo: nat, offset: nat, lineStart: nat := 0, 0, 0;
    var pending: seq<Byte>, pendingActive := [], false;
    while true
      invariant reader.Valid() && offset == reader.at
      invariant if pendingActive then lineStart <= offset else pending == []
      invariant NL !in pending && (pendingActive ==> pending == reader.data[lineStart..offset])
      invariant all == visits + VisitsFrom(reader.data, if pendingActive then lineStart else offset, lineNo)
      decreases |reader.data| - offset
    {
      var fragment, err := reader.ReadSlice();
      if !pendingActive {
        lineStart := offset;
      }
      ghost var from := offset;
      offset := offset + |fragment|;
      if err == Some(BufferFull) {
        Joined(reader.data, lineStart, from, offset);
        LinesJoin(pending, fragment, true);
        pending := pending + fragment;
        pendingActive := true;
        continue;
      }
      if err.Some? && err != Some(EOF) {
        return visits, false;
      }
      LinesJoin(pending, fragment, err.Some?);
      var line := fragment;
      if |pending| > 0 {
        pending := pending + fragment;
        line := pending;
        pending := [];
      }
      pendingActive := false;
      Joined(reader.data, lineStart, from, offset);
      LineDone(all, visits, reader.data, lineStart, offset, line, err == Some(EOF), lineNo);
      visits, lineNo := VisitLine(visits, lineNo, lineStart, line);
      if err == Some(EOF) {
        return visits, true;
      }
    }
  }
}
