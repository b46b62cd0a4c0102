/** UTF-8: how texts are encoded, and which byte strings are encodings (RFC 3629). */
module Utf8 {
  import opened Bytes

  /** The bytes of a character (section 3 of RFC 3629). */
  function EncodeChar(c: char): (bs: seq<Byte>)
    ensures bs != [] && (|bs| == 1 ==> bs[0] == c as int < 128)
    ensures |bs| > 1 ==> c as int >= 128 && forall i :: 0 <= i < |bs| ==> bs[i] >= 128
  {
    var n := c as int;
    if n < 0x80 then [n]
    else if n < 0x800 then [0xC0 + n / 0x40, 0x80 + n % 0x40]
    else if n < 0x1_0000 then [0xE0 + n / 0x1000, 0x80 + n / 0x40 % 0x40, 0x80 + n % 0x40]
    else [0xF0 + n / 0x4_0000, 0x80 + n / 0x1000 % 0x40, 0x80 + n / 0x40 % 0x40, 0x80 + n % 0x40]
  }

  function Encode(s: string): seq<Byte> {
    if s == "" then [] else Encode(s[..|s| - 1]) + EncodeChar(s[|s| - 1])
  }

  predicate IsTail(b: Byte) {
    0x80 <= b <= 0xBF
  }

  /** How many bytes the character takes whose first byte is `b`; 0 if none starts with it
      (section 4 of RFC 3629). */
  function Width(b: Byte): nat {
    if b <= 0x7F then 1
    else if 0xC2 <= b <= 0xDF then 2
    else if 0xE0 <= b <= 0xEF then 3
    else if 0xF0 <= b <= 0xF4 then 4
    else 0
  }

  /** The second byte's range depends on the first. */
  predicate SecondOk(first: Byte, second: Byte) {
    match first
    case 0xE0 => 0xA0 <= second <= 0xBF
    case 0xED => 0x80 <= second <= 0x9F
    case 0xF0 => 0x90 <= second <= 0xBF
    case 0xF4 => 0x80 <= second <= 0x8F
    case _ => IsTail(second)
  }

  /** A whole character lies at `i`, before `end`. */
  predicate CharAt(s: seq<Byte>, i: nat, end: nat)
    requires i < end <= |s|
  {
    var n := Width(s[i]);
    && 0 < n <= end - i
    && (n > 1 ==> SecondOk(s[i], s[i + 1]))
    && (n > 2 ==> IsTail(s[i + 2]))
    && (n > 3 ==> IsTail(s[i + 3]))
  }

  predicate ValidBetween(s: seq<Byte>, i: nat, end: nat)
    requires i <= end <= |s|
    decreases end - i
  {
    i == end || (CharAt(s, i, end) && ValidBetween(s, i + Width(s[i]), end))
  }

  /** Well-formed UTF-8. */
  predicate IsUtf8(s: seq<Byte>) {
    ValidBetween(s, 0, |s|)
  }

  /** Six more bits of a character's number. */
  function Extend(high: int, b: Byte): int {
    high * 0x40 + (b as int - 0x80)
  }

  lemma TwoBytes(a: Byte, b: Byte) returns (c: char)
    requires 0xC2 <= a <= 0xDF && IsTail(b)
    ensures EncodeChar(c) == [a, b]
  {
    c := Extend(a as int - 0xC0, b) as char;
  }

  lemma ThreeBytes(a: Byte, b: Byte, d: Byte) returns (c: char)
    requires 0xE0 <= a <= 0xEF && SecondOk(a, b) && IsTail(d)
    ensures EncodeChar(c) == [a, b, d]
  {
    var high := Extend(a as int - 0xE0, b);
    var n := Extend(high, d);
    assert n / 0x40 == high && n / 0x1000 == a as int - 0xE0;
    c := n as char;
  }

  lemma FourBytes(a: Byte, b: Byte, d: Byte, e: Byte) returns (c: char)
    requires 0xF0 <= a <= 0xF4 && SecondOk(a, b) && IsTail(d) && IsTail(e)
    ensures EncodeChar(c) == [a, b, d, e]
  {
    var high := Extend(a as int - 0xF0, b);
    var mid := Extend(high, d);
    var n := Extend(mid, e);
    assert n / 0x40 == mid && n / 0x1000 == high && n / 0x4_0000 == a as int - 0xF0;
    c := n as char;
  }

  /** A whole character is the encoding of one. */
  lemma CharIsEncoded(s: seq<Byte>, i: nat, end: nat) returns (c: char)
    requires i < end <= |s| && CharAt(s, i, end)
    ensures EncodeChar(c) == s[i..i + Width(s[i])]
  {
    var n := Width(s[i]);
    if n == 1 {
      c := s[i] as char;
    } else if n == 2 {
      c := TwoBytes(s[i], s[i + 1]);
    } else if n == 3 {
      c := ThreeBytes(s[i], s[i + 1], s[i + 2]);
    } else {
      c := FourBytes(s[i], s[i + 1], s[i + 2], s[i + 3]);
    }
  }

  lemma EncodedIsChar(c: char)
    ensures var bs := EncodeChar(c); CharAt(bs, 0, |bs|) && Width(bs[0]) == |bs|
  {
  }

  lemma {:induction false} EncodeCons(c: char, s: string)
    ensures Encode([c] + s) == EncodeChar(c) + Encode(s)
  {
    if s == "" {
      assert [c] + s == [c] && [c][..0] == "";
    } else {
      var front, last := s[..|s| - 1], s[|s| - 1];
      EncodeCons(c, front);
      assert ([c] + s)[..|s|] == [c] + front && ([c] + s)[|s|] == last;
      Associative(EncodeChar(c), Encode(front), EncodeChar(last));
    }
  }

  lemma Associative(a: seq<Byte>, b: seq<Byte>, c: seq<Byte>)
    ensures (a + b) + c == a + (b + c)
  {
  }

  /** A text followed by one more character. */
  lemma {:induction false} ValidSnoc(a: seq<Byte>, b: seq<Byte>, i: nat)
    requires i <= |a| && ValidBetween(a, i, |a|)
    requires b != [] && CharAt(b, 0, |b|) && Width(b[0]) == |b|
    ensures ValidBetween(a + b, i, |a + b|)
    decreases |a| - i
  {
    if i == |a| {
      assert (a + b)[i..] == b && CharAt(a + b, i, |a + b|);
    } else {
      ValidSnoc(a, b, i + Width(a[i]));
      assert CharAt(a + b, i, |a + b|);
    }
  }

  lemma {:induction false} EncodedIsUtf8(s: string)
    ensures IsUtf8(Encode(s))
  {
    if s != "" {
      EncodedIsUtf8(s[..|s| - 1]);
      EncodedIsChar(s[|s| - 1]);
      ValidSnoc(Encode(s[..|s| - 1]), EncodeChar(s[|s| - 1]), 0);
    }
  }

  lemma {:induction false} ValidIsEncoded(bs: seq<Byte>, i: nat) returns (s: string)
    requires i <= |bs| && ValidBetween(bs, i, |bs|)
    ensures Encode(s) == bs[i..]
    decreases |bs| - i
  {
    if i == |bs| {
      s := "";
    } else {
      var c := CharIsEncoded(bs, i, |bs|);
      var next := i + Width(bs[i]);
      var rest := ValidIsEncoded(bs, next);
      EncodeCons(c, rest);
      assert bs[i..] == bs[i..next] + bs[next..];
      s := [c] + rest;
    }
  }

  /** Well-formed are exactly the encodings of texts. */
  lemma WellFormedIsEncoded(bs: seq<Byte>)
    ensures IsUtf8(bs) <==> exists s :: Encode(s) == bs
  {
    if IsUtf8(bs) {
      var s := ValidIsEncoded(bs, 0);
      assert Encode(s) == bs[0..] == bs;
    }
    forall s | Encode(s) == bs ensures IsUtf8(bs) {
      EncodedIsUtf8(s);
    }
  }
}
