/** Event ids as clients send them back (httpapi/sse.go:341-366). */
module EventIDs {
  import opened Wrappers
  import opened Records
  import opened Text

  predicate IsDigit(c: char) {
    '0' <= c <= '9'
  }

  function DigitChar(d: nat): (c: char)
    requires d < 10
    ensures IsDigit(c) && Value(c) == d
  {
    '0' + d as char
  }

  function Value(c: char): nat
    requires IsDigit(c)
  {
    (c - '0') as nat
  }

  /** strconv.FormatUint in base 10. */
  function Format(n: nat): (s: string)
    ensures s != "" && forall i :: 0 <= i < |s| ==> IsDigit(s[i])
  {
    if n < 10 then [DigitChar(n)] else Format(n / 10) + [DigitChar(n % 10)]
  }

  /** strconv.ParseUint in base 10, 64 bits: digits only, and no overflow. */
  function Parse(s: string): Option<nat> {
    if s == "" || !IsDigit(s[|s| - 1]) then None
    else if |s| == 1 then Some(Value(s[0]))
    else
      var front := Parse(s[..|s| - 1]);
      if front.None? || front.value * 10 + Value(s[|s| - 1]) > MAX_ID then None
      else Some(front.value * 10 + Value(s[|s| - 1]))
  }

  /** eventIDString: the id 0 names no event. */
  function EventIDString(id: nat): string {
    if id == 0 then "" else Format(id)
  }

  /** parseEventID: blank text stands for no id; a bad one is refused. */
  function ParseEventID(value: string): Option<nat> {
    if TrimSpace(value) == "" then Some(0) else Parse(TrimSpace(value))
  }

  lemma {:induction false} FormatParses(n: nat)
    requires n <= MAX_ID
    ensures Parse(Format(n)) == Some(n)
  {
    if n >= 10 {
      FormatParses(n / 10);
      var s := Format(n);
      assert s[..|s| - 1] == Format(n / 10);
    }
  }

  lemma DigitsAreNotTrimmed(s: string)
    requires forall i :: 0 <= i < |s| ==> IsDigit(s[i])
    ensures TrimSpace(s) == s
  {
  }

  /** A client that sends back the id of a frame resumes from exactly that event. */
  lemma IDRoundTrip(id: nat)
    requires id <= MAX_ID
    ensures ParseEventID(EventIDString(id)) == Some(id)
  {
    if id > 0 {
      FormatParses(id);
      DigitsAreNotTrimmed(Format(id));
    }
  }

  predicate AllDigits(s: string) {
    forall i :: 0 <= i < |s| ==> IsDigit(s[i])
  }

  /** The number a text of digits denotes. */
  function Decimal(s: string): nat
    requires AllDigits(s)
  {
    if s == "" then 0 else Decimal(s[..|s| - 1]) * 10 + Value(s[|s| - 1])
  }

  /** Accepted are exactly the texts of digits whose number fits 64 bits, as that number. */
  lemma {:induction false} ParseAccepts(s: string)
    ensures Parse(s) == if s != "" && AllDigits(s) && Decimal(s) <= MAX_ID then Some(Decimal(s)) else None
  {
    if s != "" {
      var front := s[..|s| - 1];
      assert s == front + [s[|s| - 1]];
      ParseAccepts(front);
      if |s| == 1 {
        assert front == "";
      }
    }
  }
}
