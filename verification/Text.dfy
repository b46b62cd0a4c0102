/** The string helpers several components share. */
module Text {
  /** unicode.IsSpace. */
  predicate IsSpace(c: char) {
    || c == '\t' || c == '\n' || c == '\U{0B}' || c == '\U{0C}' || c == '\r' || c == ' '
    || c == '\U{85}' || c == '\U{A0}' || c == '\U{1680}' || '\U{2000}' <= c <= '\U{200A}'
    || c == '\U{2028}' || c == '\U{2029}' || c == '\U{202F}' || c == '\U{205F}' || c == '\U{3000}'
  }

  function TrimLeft(s: string): string {
    if s != [] && IsSpace(s[0]) then TrimLeft(s[1..]) else s
  }

  function TrimRight(s: string): string {
    if s != [] && IsSpace(s[|s| - 1]) then TrimRight(s[..|s| - 1]) else s
  }

  /** strings.TrimSpace. */
  function TrimSpace(s: string): string {
    TrimRight(TrimLeft(s))
  }

  lemma {:induction false} TrimLeftDrops(s: string) returns (n: nat)
    ensures n <= |s| && TrimLeft(s) == s[n..] && (forall i :: 0 <= i < n ==> IsSpace(s[i]))
    ensures n < |s| ==> !IsSpace(s[n])
  {
    if s != [] && IsSpace(s[0]) {
      n := TrimLeftDrops(s[1..]);
      n := n + 1;
      assert forall i :: 0 < i < n ==> s[i] == s[1..][i - 1];
    } else {
      n := 0;
    }
  }

  lemma {:induction false} TrimRightDrops(s: string) returns (n: nat)
    ensures n <= |s| && TrimRight(s) == s[..n] && (forall i :: n <= i < |s| ==> IsSpace(s[i]))
    ensures n > 0 ==> !IsSpace(s[n - 1])
  {
    if s != [] && IsSpace(s[|s| - 1]) {
      n := TrimRightDrops(s[..|s| - 1]);
    } else {
      n := |s|;
    }
  }

  /** Trimming drops exactly the spaces at both ends. */
  lemma TrimSpaceDrops(s: string) returns (lo: nat, hi: nat)
    ensures lo <= hi <= |s| && TrimSpace(s) == s[lo..hi]
    ensures (forall i :: 0 <= i < lo ==> IsSpace(s[i])) && (forall i :: hi <= i < |s| ==> IsSpace(s[i]))
    ensures lo < hi ==> !IsSpace(s[lo]) && !IsSpace(s[hi - 1])
  {
    lo := TrimLeftDrops(s);
    var n := TrimRightDrops(s[lo..]);
    hi := lo + n;
    assert forall i :: hi <= i < |s| ==> s[i] == s[lo..][i - lo];
  }

  /** The first value from the `i`-th on that is not blank, trimmed; "" when all are. */
  function FirstFrom(values: seq<string>, i: nat): string
    requires i <= |values|
    decreases |values| - i
  {
    if i == |values| then ""
    else if TrimSpace(values[i]) != "" then TrimSpace(values[i])
    else FirstFrom(values, i + 1)
  }

  function FirstNonEmpty(values: seq<string>): string {
    FirstFrom(values, 0)
  }

  /** Of two texts the first unless it is blank. */
  function Either(a: string, b: string): string {
    if TrimSpace(a) != "" then TrimSpace(a) else TrimSpace(b)
  }

  lemma FirstOfTwo(a: string, b: string)
    ensures FirstNonEmpty([a, b]) == Either(a, b)
  {
    assert FirstFrom([a, b], 2) == "";
    assert FirstFrom([a, b], 1) == TrimSpace(b);
  }

  lemma FirstOfFour(a: string, b: string, c: string, d: string)
    ensures FirstNonEmpty([a, b, c, d]) ==
        if TrimSpace(a) != "" then TrimSpace(a) else if TrimSpace(b) != "" then TrimSpace(b) else Either(c, d)
  {
    var values := [a, b, c, d];
    assert FirstFrom(values, 4) == "";
    assert FirstFrom(values, 3) == TrimSpace(d);
    assert FirstFrom(values, 2) == Either(c, d);
    assert FirstFrom(values, 1) == if TrimSpace(b) != "" then TrimSpace(b) else Either(c, d);
  }
}
