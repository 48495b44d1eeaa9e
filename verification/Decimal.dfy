/** The hand-written integer printer (internal/domain/policy/dailybrief.go: itoa), on Go's 64-bit
    integers: negating the least one wraps back to itself. */
module Decimal {
  import opened Common

  const LEAST := -0x8000_0000_0000_0000
  const BOUND := 0x8000_0000_0000_0000

  predicate IsInt64(n: int) { LEAST <= n < BOUND }

  function Neg64(n: int): (r: int)
    requires IsInt64(n)
    ensures IsInt64(r)
  {
    if n == LEAST then LEAST else -n
  }

  function Digit(d: int): char
    requires 0 <= d < 10
  {
    ('0' as int + d) as char
  }

  predicate IsDigit(c: char) { '0' <= c <= '9' }

  function ValueOf(c: char): int
    requires IsDigit(c)
  {
    c as int - '0' as int
  }

  /** The digits of a positive number, most significant first. */
  function Digits(n: nat): string {
    if n == 0 then "" else Digits(n / 10) + [Digit(n % 10)]
  }

  function Itoa(n: int): string
    requires IsInt64(n)
  {
    if n == 0 then "0"
    else if n > 0 then Digits(n)
    else if n == LEAST then "-"
    else "-" + Digits(-n)
  }

  function Pow10(k: nat): nat { if k == 0 then 1 else 10 * Pow10(k - 1) }

  lemma NineteenDigitsSuffice()
    ensures BOUND <= Pow10(19)
  {
    assert Pow10(4) == 10_000;
    assert Pow10(8) == 1_0000_0000;
    assert Pow10(12) == 1_0000_0000_0000;
    assert Pow10(16) == 1_0000_0000_0000_0000;
  }

  /** What is still to be printed of n; nothing once n is used up, nor for the least integer. */
  function Unprinted(n: int): string { if n > 0 then Digits(n) else "" }

  /** The buffer holds `tail` from i on, and room for what is left and a sign before it. */
  ghost predicate Printing(n: int, i: int, tail: string, digits: string) {
    1 <= i <= 20 && (n > 0 ==> n < Pow10(i - 1)) && Unprinted(n) + tail == digits
  }

  /** Moving the last digit into the buffer moves the bound down one power of ten. */
  lemma PrintDigit(n: int, i: int, tail: string, digits: string)
    requires n > 0 && Printing(n, i, tail, digits)
    ensures i >= 2 && Printing(n / 10, i - 1, [Digit(n % 10)] + tail, digits)
  {
    assert Digits(n) == Digits(n / 10) + [Digit(n % 10)];
    assert Digits(n / 10) + [Digit(n % 10)] + tail == Digits(n / 10) + ([Digit(n % 10)] + tail);
    if n / 10 == 0 { assert Digits(0) == ""; }
  }

  lemma PrintingStarts(n: int)
    requires IsInt64(n)
    ensures Printing(n, 20, "", Unprinted(n))
  {
    NineteenDigitsSuffice();
    hide Pow10, Digits;
    assert Unprinted(n) + "" == Unprinted(n);
  }

  lemma PrintingEnds(n: int, i: int, tail: string, digits: string)
    requires n <= 0 && Printing(n, i, tail, digits)
    ensures tail == digits
  {
    assert "" + tail == tail;
  }

  /** Digits are written backwards into a 20-byte buffer; the write index never passes its start. */
  method ItoaInBuffer(n0: int) returns (s: string)
    requires IsInt64(n0)
    ensures s == Itoa(n0)
  {
    if n0 == 0 { return "0"; }
    var neg := n0 < 0;
    var n := if neg then Neg64(n0) else n0;
    ghost var digits := Unprinted(n);
    assert Itoa(n0) == if neg then ['-'] + digits else digits;
    PrintingStarts(n);
    hide Pow10, Digits, Unprinted, Printing, Itoa;
    var buf := new char[20];
    var i := buf.Length;
    assert buf[i..] == "";
    while n > 0
      invariant 1 <= i <= 20 && Printing(n, i, buf[i..], digits)
      decreases n
    {
      PrintDigit(n, i, buf[i..], digits);
      i := PutBefore(buf, i, Digit(n % 10));
      n := n / 10;
    }
    PrintingEnds(n, i, buf[i..], digits);
    if neg {
      i := PutBefore(buf, i, '-');
    }
    return buf[i..];
  }

  method PutBefore(buf: array<char>, i: nat, c: char) returns (i': nat)
    requires 1 <= i <= buf.Length
    modifies buf
    ensures i' == i - 1 && buf[i'..] == [c] + old(buf[i..])
  {
    i' := i - 1;
    buf[i'] := c;
  }

  // ----- reading it back -----

  predicate AllDigits(s: string) { forall i :: 0 <= i < |s| ==> IsDigit(s[i]) }

  function Natural(s: string): nat
    requires AllDigits(s)
  {
    if s == "" then 0 else 10 * Natural(s[..|s| - 1]) + ValueOf(s[|s| - 1])
  }

  /** The usual reading of a decimal integer: an optional minus sign and at least one digit. */
  function Parse(s: string): Option<int> {
    var unsigned := if s != "" && s[0] == '-' then s[1..] else s;
    if unsigned == "" || !AllDigits(unsigned) then None
    else
      var value: int := Natural(unsigned);
      Some(if unsigned == s then value else -value)
  }

  /** No sign but a minus, no leading zero, no minus zero. */
  predicate Canonical(s: string) {
    var unsigned := if s != "" && s[0] == '-' then s[1..] else s;
    unsigned != "" && AllDigits(unsigned) && (unsigned[0] == '0' ==> s == "0")
  }

  lemma {:induction false} DigitsReadBack(n: nat)
    ensures AllDigits(Digits(n)) && Natural(Digits(n)) == n
    ensures n > 0 ==> Digits(n) != "" && Digits(n)[0] != '0'
  {
    if n > 0 {
      DigitsReadBack(n / 10);
      var front := Digits(n / 10);
      assert Digits(n)[..|front|] == front;
      if n / 10 > 0 { assert Digits(n)[0] == front[0]; }
    }
  }

  lemma LastDigit(front: nat, d: nat)
    requires d < 10
    ensures (10 * front + d) / 10 == front && (10 * front + d) % 10 == d
  {
  }

  lemma {:induction false} DigitsAreUnique(s: string)
    requires AllDigits(s) && s != "" && s[0] != '0'
    ensures Natural(s) > 0 && Digits(Natural(s)) == s
  {
    var front, last := s[..|s| - 1], s[|s| - 1];
    assert s == front + [last];
    LastDigit(Natural(front), ValueOf(last));
    assert Digit(ValueOf(last)) == last;
    if front == "" {
      assert Digits(0) == front;
    } else {
      DigitsAreUnique(front);
    }
  }

  lemma DigitsParse(n: nat)
    requires n > 0
    ensures Parse(Digits(n)) == Some(n) && Canonical(Digits(n))
  {
    DigitsReadBack(n);
    assert IsDigit(Digits(n)[0]);
  }

  lemma NegatedDigitsParse(n: int)
    requires n < 0
    ensures Parse("-" + Digits(-n)) == Some(n) && Canonical("-" + Digits(-n))
  {
    DigitsReadBack(-n);
    hide Digits, Natural;
    assert ("-" + Digits(-n))[1..] == Digits(-n);
  }

  /** The round trip and the canonical form hold on every 64-bit integer but the least, whose printed
      form is a bare minus sign. */
  lemma PrintsAndReadsBack(n: int)
    requires IsInt64(n)
    ensures Parse(Itoa(n)) == Some(n) <==> n != LEAST
    ensures Canonical(Itoa(n)) <==> n != LEAST
    ensures n == LEAST ==> Itoa(n) == "-" && Parse(Itoa(n)) == None
  {
    if n > 0 {
      DigitsParse(n);
    } else if n == 0 {
      assert "0"[..0] == "";
    } else if n != LEAST {
      NegatedDigitsParse(n);
    } else {
      assert "-"[1..] == "";
    }
  }

  /** The other way round: every canonical text of a 64-bit integer but the least is what the printer
      prints for its value. */
  lemma CanonicalTextsAreThePrintedOnes(s: string)
    requires Canonical(s) && Parse(s).Some?
    requires IsInt64(Parse(s).value) && Parse(s).value != LEAST
    ensures Itoa(Parse(s).value) == s
  {
    var unsigned := if s[0] == '-' then s[1..] else s;
    if s == "0" {
      assert s[..0] == "";
    } else {
      DigitsAreUnique(unsigned);
      if s[0] == '-' { assert s == "-" + unsigned; }
    }
  }

  /** At most nineteen digits and a sign: the buffer is large enough. */
  lemma {:induction false} LengthBound(n: nat, k: nat)
    requires n < Pow10(k)
    ensures |Digits(n)| <= k
  {
    if n > 0 && k > 0 { LengthBound(n / 10, k - 1); }
  }

  lemma TwentyBytesSuffice(n: int)
    requires IsInt64(n)
    ensures 1 <= |Itoa(n)| <= 20
  {
    if n != 0 && n != LEAST {
      NineteenDigitsSuffice();
      LengthBound(if n > 0 then n else -n, 19);
      DigitsReadBack(if n > 0 then n else -n);
    }
  }
}
