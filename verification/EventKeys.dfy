/** The event log's key codec: an id as eight big-endian bytes, so that the bucket's
    byte order is the id order. */
module EventKeys {
  import opened Bytes
  import opened Records

  type Key = seq<Byte>

  const KEY_SIZE: nat := 8

  function Pow256(n: nat): nat {
    if n == 0 then 1 else 256 * Pow256(n - 1)
  }

  function BigEndian(bs: seq<Byte>): nat {
    if bs == [] then 0 else BigEndian(bs[..|bs| - 1]) * 256 + bs[|bs| - 1]
  }

  /** The n low-order bytes of v, most significant first. */
  function PutBigEndian(v: nat, n: nat): seq<Byte> {
    if n == 0 then [] else PutBigEndian(v / 256, n - 1) + [(v % 256)]
  }

  function EventKey(id: nat): Key {
    PutBigEndian(id, KEY_SIZE)
  }

  function EventID(key: Key): nat {
    if |key| < KEY_SIZE then 0 else BigEndian(key[..KEY_SIZE])
  }

  /** bytes.Compare(a, b) < 0. */
  predicate LexLess(a: Key, b: Key) {
    if a == [] then b != []
    else if b == [] then false
    else a[0] < b[0] || (a[0] == b[0] && LexLess(a[1..], b[1..]))
  }

  lemma {:induction false} PutSize(v: nat, n: nat)
    ensures |PutBigEndian(v, n)| == n
  {
    if n > 0 {
      PutSize(v / 256, n - 1);
    }
  }

  lemma {:induction false} PutThenRead(v: nat, n: nat)
    requires v < Pow256(n)
    ensures BigEndian(PutBigEndian(v, n)) == v
  {
    if n > 0 {
      PutThenRead(v / 256, n - 1);
      PutSize(v / 256, n - 1);
      var bs := PutBigEndian(v, n);
      assert bs[..|bs| - 1] == PutBigEndian(v / 256, n - 1);
    }
  }

  lemma {:induction false} ReadThenPut(bs: seq<Byte>)
    ensures PutBigEndian(BigEndian(bs), |bs|) == bs
    ensures BigEndian(bs) < Pow256(|bs|)
  {
    if bs != [] {
      var front, last := bs[..|bs| - 1], bs[|bs| - 1];
      ReadThenPut(front);
      var v := BigEndian(bs);
      assert v / 256 == BigEndian(front) && v % 256 == last;
      assert bs == front + [last];
    }
  }

  lemma {:induction false} LexSnoc(a: Key, b: Key, x: Byte, y: Byte)
    requires |a| == |b|
    ensures LexLess(a + [x], b + [y]) <==> LexLess(a, b) || (a == b && x < y)
  {
    if a == [] {
      assert !LexLess([], []);
      assert (a + [x])[1..] == [] && (b + [y])[1..] == [];
    } else {
      LexSnoc(a[1..], b[1..], x, y);
      assert (a + [x])[1..] == a[1..] + [x] && (b + [y])[1..] == b[1..] + [y];
      assert a == [a[0]] + a[1..] && b == [b[0]] + b[1..];
    }
  }

  lemma {:induction false} LexIsNumeric(a: Key, b: Key)
    requires |a| == |b|
    ensures LexLess(a, b) <==> BigEndian(a) < BigEndian(b)
    ensures a == b <==> BigEndian(a) == BigEndian(b)
  {
    if a != [] {
      var fa, fb, x, y := a[..|a| - 1], b[..|b| - 1], a[|a| - 1], b[|b| - 1];
      LexIsNumeric(fa, fb);
      LexSnoc(fa, fb, x, y);
      assert a == fa + [x] && b == fb + [y];
    }
  }

  /** eventID undoes eventKey on every 64-bit id. */
  lemma KeyRoundTrip(id: nat)
    requires id <= MAX_ID
    ensures |EventKey(id)| == KEY_SIZE && EventID(EventKey(id)) == id
  {
    PutSize(id, KEY_SIZE);
    assert Pow256(8) == 0x1_0000_0000_0000_0000 by {
      assert Pow256(4) == 0x1_0000_0000;
      assert Pow256(8) == 256 * 256 * 256 * 256 * Pow256(4);
    }
    PutThenRead(id, KEY_SIZE);
    assert EventKey(id)[..KEY_SIZE] == EventKey(id);
  }

  /** eventKey undoes eventID on every eight-byte key, so no two keys share an id. */
  lemma IdRoundTrip(key: Key)
    requires |key| == KEY_SIZE
    ensures EventKey(EventID(key)) == key && EventID(key) <= MAX_ID
  {
    assert key[..KEY_SIZE] == key;
    ReadThenPut(key);
    assert Pow256(8) == 0x1_0000_0000_0000_0000 by {
      assert Pow256(4) == 0x1_0000_0000;
      assert Pow256(8) == 256 * 256 * 256 * 256 * Pow256(4);
    }
  }

  /** The bucket's byte order is the id order. */
  lemma KeyOrder(a: Key, b: Key)
    requires |a| == |b| == KEY_SIZE
    ensures LexLess(a, b) <==> EventID(a) < EventID(b)
    ensures a == b <==> EventID(a) == EventID(b)
  {
    assert a[..KEY_SIZE] == a && b[..KEY_SIZE] == b;
    LexIsNumeric(a, b);
  }
}
