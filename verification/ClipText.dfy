/** UTF-8-safe clipping of large text (textutil/textutil.go:79-116). */
module ClipText {
  import opened Bytes
  import opened Utf8

  /** A character ends just before `end`. */
  predicate LastCharOk(s: seq<Byte>, end: nat)
    requires 0 < end <= |s|
  {
    exists n :: 1 <= n <= 4 && n <= end && CharEnds(s, end, n)
  }

  predicate CharEnds(s: seq<Byte>, end: nat, n: nat)
    requires 1 <= n <= end <= |s|
  {
    CharAt(s, end - n, end) && Width(s[end - n]) == n
  }

  lemma TailsHaveNoWidth(s: seq<Byte>, i: nat, end: nat, j: nat)
    requires i < end <= |s| && CharAt(s, i, end) && i < j < i + Width(s[i])
    ensures IsTail(s[j]) && Width(s[j]) == 0
  {
  }

  /** Cutting a well-formed text at `i` and dropping bytes until a character begins leaves
      a well-formed rest. */
  lemma {:induction false} RestIsValid(s: seq<Byte>, from: nat, i: nat)
    requires from <= i <= |s| && ValidBetween(s, from, |s|)
    requires i == |s| || CharAt(s, i, |s|)
    ensures ValidBetween(s, i, |s|)
    decreases i - from
  {
    if from < i {
      var next := from + Width(s[from]);
      if i < next {
        TailsHaveNoWidth(s, from, |s|, i);
      } else {
        RestIsValid(s, next, i);
      }
    }
  }

  /** Cutting it at `end` and dropping bytes until a character ends leaves a well-formed
      front. */
  lemma {:induction false} FrontIsValid(s: seq<Byte>, from: nat, end: nat)
    requires from <= end <= |s| && ValidBetween(s, from, |s|)
    requires end == from || (end > 0 && exists n :: 1 <= n <= 4 && n <= end - from && CharEnds(s, end, n))
    ensures ValidBetween(s, from, end)
    decreases end - from
  {
    if from < end {
      var n :| 1 <= n <= 4 && n <= end - from && CharEnds(s, end, n);
      var next := from + Width(s[from]);
      if end - n < next {
        assert end - n == from;
      } else if next < end {
        FrontIsValid(s, next, end);
      }
      assert CharAt(s, from, end);
    }
  }

  /** In a well-formed text a character begins at most three bytes further on. */
  lemma {:induction false} CharBeginsSoon(s: seq<Byte>, from: nat, i: nat) returns (j: nat)
    requires from <= i <= |s| && ValidBetween(s, from, |s|)
    ensures i <= j <= i + 3 && j <= |s| && (j == |s| || CharAt(s, j, |s|))
    decreases i - from
  {
    if from == i {
      j := i;
    } else {
      var next := from + Width(s[from]);
      if i < next {
        j := next;
      } else {
        j := CharBeginsSoon(s, next, i);
      }
    }
  }

  /** And one has ended at most three bytes before. */
  lemma {:induction false} CharEndsSoon(s: seq<Byte>, from: nat, end: nat) returns (j: nat)
    requires from <= end <= |s| && ValidBetween(s, from, |s|)
    ensures from <= j <= end <= j + 3 && (j == from || exists n :: 1 <= n <= 4 && n <= j - from && CharEnds(s, j, n))
    decreases end - from
  {
    if from == end {
      j := end;
    } else {
      var next := from + Width(s[from]);
      if end < next {
        j := from;
      } else {
        assert CharEnds(s, next, Width(s[from]));
        j := CharEndsSoon(s, next, end);
      }
    }
  }

  /** strings.LastIndexByte: the last occurrence, or -1. */
  method LastIndexByte(s: seq<Byte>, b: Byte) returns (i: int)
    ensures -1 <= i < |s| && (i >= 0 ==> s[i] == b)
    ensures forall k :: i < k < |s| ==> s[k] != b
  {
    i := |s| - 1;
    while i >= 0 && s[i] != b
      invariant -1 <= i < |s| && forall k :: i < k < |s| ==> s[k] != b
    {
      i := i - 1;
    }
  }

  /** strings.IndexByte: the first occurrence, or -1. */
  method IndexByte(s: seq<Byte>, b: Byte) returns (i: int)
    ensures -1 <= i < |s| && (i >= 0 ==> s[i] == b)
    ensures forall k :: 0 <= k < (if i < 0 then |s| else i) ==> s[k] != b
  {
    i := 0;
    while i < |s|
      invariant 0 <= i <= |s| && forall k :: 0 <= k < i ==> s[k] != b
    {
      if s[i] == b {
        return i;
      }
      i := i + 1;
    }
    return -1;
  }

  /** utf8.DecodeLastRuneInString, which looks back at most four bytes for a byte that is
      not a tail: whether the text ends in a partial or malformed character. */
  method EndsBadly(s: seq<Byte>) returns (bad: bool)
    requires |s| > 0
    ensures bad <==> !LastCharOk(s, |s|)
  {
    var end := |s|;
    var start := end - 1;
    if s[start] < 0x80 {
      assert CharEnds(s, end, 1);
      return false;
    }
    var lim := if end < 4 then 0 else end - 4;
    start := start - 1;
    while start >= lim && IsTail(s[start])
      invariant lim - 1 <= start < end - 1
      invariant forall k :: start < k < end - 1 ==> IsTail(s[k])
    {
      start := start - 1;
    }
    ghost var found := start;
    if start < 0 {
      start := 0;
    }
    if CharAt(s, start, end) && Width(s[start]) == end - start {
      assert CharEnds(s, end, end - start);
      return false;
    }
    forall n | 1 <= n <= 4 && n <= end ensures !CharEnds(s, end, n) {
      if CharEnds(s, end, n) {
        forall k | end - n < k < end ensures IsTail(s[k]) {
          TailsHaveNoWidth(s, end - n, end, k);
        }
      }
    }
    return true;
  }

  /** utf8.DecodeRuneInString: whether the text begins with a partial or malformed character. */
  predicate BeginsBadly(s: seq<Byte>)
    requires |s| > 0
  {
    !CharAt(s, 0, |s|)
  }

  /** A character ends wherever the next one begins. */
  lemma {:induction false} CharEndsThere(s: seq<Byte>, from: nat, i: nat)
    requires from < i < |s| && ValidBetween(s, from, |s|) && Width(s[i]) > 0
    ensures exists n :: 1 <= n <= 4 && n <= i - from && CharEnds(s, i, n)
    decreases i - from
  {
    var next := from + Width(s[from]);
    if i < next {
      TailsHaveNoWidth(s, from, |s|, i);
    } else if i == next {
      assert CharEnds(s, i, Width(s[from]));
    } else {
      CharEndsThere(s, next, i);
    }
  }

  lemma SamePrefix(s: seq<Byte>, k: nat, i: nat, end: nat)
    requires i <= end <= k <= |s|
    ensures ValidBetween(s, i, end) == ValidBetween(s[..k], i, end)
    decreases end - i
  {
    if i < end && CharAt(s, i, end) {
      SamePrefix(s, k, i + Width(s[i]), end);
    }
  }

  /** `end` is the last place, up to `cut`, where a whole character ends. */
  ghost predicate LastWholeEnd(s: seq<Byte>, cut: nat, end: nat)
    requires cut <= |s|
  {
    && end <= cut && (end > 0 ==> LastCharOk(s, end))
    && forall k :: end < k <= cut ==> !LastCharOk(s, k)
  }

  /** The head's last loop: shorten a front of `s` to the end of a character. */
  method TrimEnd(s: seq<Byte>, cut: nat) returns (end: nat)
    requires cut <= |s|
    ensures LastWholeEnd(s, cut, end)
    ensures IsUtf8(s) ==> end + 3 >= cut && IsUtf8(s[..end])
  {
    var h := s[..cut];
    ghost var stop := 0;
    if IsUtf8(s) {
      stop := CharEndsSoon(s, 0, cut);
    }
    while |h| > 0
      invariant |h| <= cut && h == s[..|h|] && (IsUtf8(s) ==> stop <= |h|)
      invariant forall k :: |h| < k <= cut ==> !LastCharOk(s, k)
    {
      var bad := EndsBadly(h);
      FrontAgrees(s, |h|);
      if !bad {
        break;
      }
      h := h[..|h| - 1];
    }
    end := |h|;
    if IsUtf8(s) {
      if end > 0 {
        FrontAgrees(s, end);
      }
      FrontIsValid(s, 0, end);
      SamePrefix(s, end, 0, end);
    }
  }

  lemma FrontAgrees(s: seq<Byte>, k: nat)
    requires 0 < k <= |s|
    ensures LastCharOk(s[..k], k) == LastCharOk(s, k)
  {
    forall n | 1 <= n <= 4 && n <= k ensures CharEnds(s[..k], k, n) == CharEnds(s, k, n) {
    }
  }

  /** `at` is the last newline before `cut` that is not the first byte, or else `cut`. */
  ghost predicate LineEnd(s: seq<Byte>, cut: nat, at: nat)
    requires cut <= |s|
  {
    && at <= cut && (at < cut ==> at > 0 && s[at] == NL)
    && forall k :: (if at < cut then at else 0) < k < cut ==> s[k] != NL
  }

  ghost predicate IsHead(s: seq<Byte>, cut: nat, end: nat)
    requires cut <= |s|
  {
    exists at :: LineEnd(s, cut, at) && LastWholeEnd(s, at, end)
  }

  /** The head: cut at `cut`, back to the last line boundary if there is one past the first
      byte, then to the end of a character; in a well-formed text a line boundary is one. */
  method Head(s: seq<Byte>, cut: nat) returns (end: nat)
    requires cut <= |s|
    ensures end <= cut && IsHead(s, cut, end)
    ensures IsUtf8(s) ==> IsUtf8(s[..end])
    ensures IsUtf8(s) && (forall i :: 0 < i < cut ==> s[i] != NL) ==> end + 3 >= cut
    ensures IsUtf8(s) && (exists i :: 0 < i < cut && s[i] == NL) ==>
        0 < end < cut && s[end] == NL && forall i :: end < i < cut ==> s[i] != NL
  {
    var h := s[..cut];
    var i := LastIndexByte(h, NL);
    assert forall k :: 0 <= k < cut ==> h[k] == s[k];
    if i > 0 {
      if IsUtf8(s) {
        CharEndsThere(s, 0, i);
        assert LastCharOk(s, i);
      }
      end := TrimEnd(s, i);
      assert LineEnd(s, cut, i);
    } else {
      end := TrimEnd(s, cut);
      assert LineEnd(s, cut, cut);
    }
  }

  /** `start` is the first place, from `cut` on, where a whole character begins. */
  ghost predicate FirstWholeStart(s: seq<Byte>, cut: nat, start: nat)
    requires cut <= |s|
  {
    && cut <= start <= |s| && (start < |s| ==> CharAt(s, start, |s|))
    && forall k :: cut <= k < start ==> !CharAt(s, k, |s|)
  }

  /** The tail's last loop: drop bytes until a character begins. */
  method TrimStart(s: seq<Byte>, cut: nat) returns (start: nat)
    requires cut <= |s|
    ensures FirstWholeStart(s, cut, start)
    ensures IsUtf8(s) ==> start <= cut + 3 && IsUtf8(s[start..])
    ensures cut < |s| && Width(s[cut]) > 0 && IsUtf8(s) ==> start == cut
  {
    var t := s[cut..];
    ghost var stop := |s|;
    if IsUtf8(s) {
      stop := CharBeginsSoon(s, 0, cut);
    }
    while |t| > 0
      invariant |t| <= |s| - cut && t == s[|s| - |t|..] && (IsUtf8(s) ==> |s| - |t| <= stop)
      invariant forall k :: cut <= k < |s| - |t| ==> !CharAt(s, k, |s|)
      invariant |s| - |t| > cut && IsUtf8(s) ==> Width(s[cut]) == 0
    {
      assert BeginsBadly(t) == !CharAt(s, |s| - |t|, |s|);
      if !BeginsBadly(t) {
        break;
      }
      if IsUtf8(s) && |s| - |t| == cut && Width(s[cut]) > 0 {
        CharBeginsThere(s, 0, cut);
      }
      t := t[1..];
    }
    start := |s| - |t|;
    if IsUtf8(s) {
      RestIsValid(s, 0, start);
      SameSuffix(s, start, start);
    }
  }

  lemma {:induction false} CharBeginsThere(s: seq<Byte>, from: nat, i: nat)
    requires from <= i < |s| && ValidBetween(s, from, |s|) && Width(s[i]) > 0
    ensures CharAt(s, i, |s|)
    decreases i - from
  {
    if from < i {
      var next := from + Width(s[from]);
      if i < next {
        TailsHaveNoWidth(s, from, |s|, i);
      } else {
        CharBeginsThere(s, next, i);
      }
    }
  }

  lemma SameSuffix(s: seq<Byte>, k: nat, i: nat)
    requires k <= i <= |s|
    ensures ValidBetween(s, i, |s|) == ValidBetween(s[k..], i - k, |s| - k)
    decreases |s| - i
  {
    if i < |s| && CharAt(s, i, |s|) {
      SameSuffix(s, k, i + Width(s[i]));
    }
  }

  /** `at` is just after the first newline from `cut` on, if that is not the last byte, or
      else `cut`. */
  ghost predicate LineStart(s: seq<Byte>, cut: nat, at: nat)
    requires cut <= |s|
  {
    && cut <= at && (at == |s| ==> at == cut) && at <= |s| && (at > cut ==> s[at - 1] == NL)
    && forall k :: cut <= k < (if at > cut then at - 1 else |s| - 1) ==> s[k] != NL
  }

  ghost predicate IsTailStart(s: seq<Byte>, cut: nat, start: nat)
    requires cut <= |s|
  {
    exists at :: LineStart(s, cut, at) && FirstWholeStart(s, at, start)
  }

  /** The tail: from `cut`, on to the start of the next line if one follows, then to the
      start of a character; in a well-formed text a line start is one. */
  method Tail(s: seq<Byte>, cut: nat) returns (start: nat)
    requires cut <= |s|
    ensures cut <= start <= |s| && IsTailStart(s, cut, start)
    ensures IsUtf8(s) ==> IsUtf8(s[start..])
    ensures IsUtf8(s) && (forall i :: cut <= i < |s| - 1 ==> s[i] != NL) ==> start <= cut + 3
    ensures IsUtf8(s) && (exists i :: cut <= i < |s| - 1 && s[i] == NL) ==>
        cut < start && s[start - 1] == NL && forall i :: cut <= i < start - 1 ==> s[i] != NL
  {
    var t := s[cut..];
    var i := IndexByte(t, NL);
    assert forall k :: 0 <= k < |t| ==> t[k] == s[cut + k];
    if i >= 0 && i < |t| - 1 {
      if IsUtf8(s) {
        CharBeginsThere(s, 0, cut + i);
        CharFollows(s, 0, cut + i);
      }
      start := TrimStart(s, cut + i + 1);
      assert LineStart(s, cut, cut + i + 1);
    } else {
      start := TrimStart(s, cut);
      assert LineStart(s, cut, cut);
    }
  }

  /** After a one-byte character the next one begins. */
  lemma {:induction false} CharFollows(s: seq<Byte>, from: nat, i: nat)
    requires from <= i < |s| - 1 && ValidBetween(s, from, |s|) && Width(s[i]) == 1
    ensures Width(s[i + 1]) > 0
    decreases i - from
  {
    if from < i {
      var next := from + Width(s[from]);
      if i < next {
        TailsHaveNoWidth(s, from, |s|, i);
      } else {
        CharFollows(s, next, i);
      }
    }
  }

  /** ClipText: clips exactly when the text is longer than a positive bound. What is left is
      a front and a back of the text around a marker that tells the bytes between them;
      together they fit the bound, and they are well-formed UTF-8 if the text is. */
  method Clip(s: seq<Byte>, maxBytes: int, marker: (nat, nat) -> seq<Byte>)
      returns (clipped: seq<Byte>, truncated: bool, end: nat, start: nat)
    ensures truncated <==> 0 < maxBytes < |s|
    ensures !truncated ==> clipped == s
    ensures truncated ==>
      && end < start <= |s| && clipped == s[..end] + marker(start - end, |s|) + s[start..]
      && end <= maxBytes * 2 / 3 && IsHead(s, maxBytes * 2 / 3, end)
      && |s| - start <= maxBytes - maxBytes * 2 / 3 && IsTailStart(s, |s| - (maxBytes - maxBytes * 2 / 3), start)
      && (IsUtf8(s) && NL !in s ==> end + 3 >= maxBytes * 2 / 3 && |s| - start + 3 >= maxBytes - maxBytes * 2 / 3)
      && (IsUtf8(s) ==> IsUtf8(s[..end]) && IsUtf8(s[start..]))
  {
    end, start := 0, 0;
    if maxBytes <= 0 || |s| <= maxBytes {
      return s, false, end, start;
    }
    var head := maxBytes * 2 / 3;
    var tail := maxBytes - head;
    end := Head(s, head);
    start := Tail(s, |s| - tail);
    var omitted := |s| - end - (|s| - start);
    if omitted <= 0 {
      return s, false, end, start;
    }
    clipped, truncated := s[..end] + marker(omitted, |s|) + s[start..], true;
  }
}
