/** The prescale factor: printed in decimal by the subscriber, read back as a C `int`
    by the filter. */
module Prescale {
  import opened Common

  const INT_MAX := 2147483647
  const INT_MIN := -2147483648

  predicate IsDigit(c: char) { '0' <= c <= '9' }

  function Digit(n: nat): char
    requires n < 10
  {
    "0123456789"[n]
  }

  /** `std::to_string` of an unsigned number. */
  function Print(n: nat): (s: string)
    ensures s != []
  {
    if n < 10 then [Digit(n)] else Print(n / 10) + [Digit(n % 10)]
  }

  function ReadDigits(s: string, value: nat): nat {
    if s == [] || !IsDigit(s[0]) then value
    else ReadDigits(s[1..], 10 * value + (s[0] as int - '0' as int))
  }

  function SkipSpace(s: string): string {
    if s != [] && IsSpace(s[0]) then SkipSpace(s[1..]) else s
  }

  function Clamp(v: int): int {
    if v > INT_MAX then INT_MAX else if v < INT_MIN then INT_MIN else v
  }

  /** `stream >> i`: white space, an optional sign, digits; no digits read as 0, and a
      value out of range as the nearest `int`. */
  function ReadInt(text: string): int {
    var s := SkipSpace(text);
    if s != [] && s[0] == '-' then Clamp(0 - ReadDigits(s[1..], 0) as int)
    else if s != [] && s[0] == '+' then Clamp(ReadDigits(s[1..], 0))
    else Clamp(ReadDigits(s, 0))
  }

  /** The factor the filter uses for its parameter list: only a positive first parameter. */
  function FactorOf(parameters: seq<string>): (f: Option<int>)
    ensures f.Some? ==> 1 <= f.value <= INT_MAX
  {
    if parameters != [] && ReadInt(parameters[0]) > 0 then Some(ReadInt(parameters[0])) else None
  }

  lemma DigitReads(n: nat)
    requires n < 10
    ensures IsDigit(Digit(n)) && Digit(n) as int - '0' as int == n
  {
  }

  lemma {:induction false} ReadPrinted(n: nat, tail: string)
    ensures ReadDigits(Print(n) + tail, 0) == ReadDigits(tail, n)
    ensures IsDigit(Print(n)[0])
    decreases n
  {
    if n < 10 {
      DigitReads(n);
      assert (Print(n) + tail)[1..] == tail;
    } else {
      var d := [Digit(n % 10)];
      DigitReads(n % 10);
      ReadPrinted(n / 10, d + tail);
      assert Print(n) + tail == Print(n / 10) + (d + tail);
      assert (d + tail)[1..] == tail;
      assert 10 * (n / 10) + n % 10 == n;
    }
  }

  /** Other parameter texts: white space and a plus sign in front are passed over; a minus
      sign, a text that begins with no number, and no parameter at all give no factor. */
  lemma OtherParameters(k: nat, x: char)
    requires !IsDigit(x) && !IsSpace(x) && x != '+' && x != '-'
    ensures FactorOf([" " + Print(k)]) == FactorOf(["+" + Print(k)]) == FactorOf([Print(k)])
    ensures FactorOf(["-" + Print(k)]) == None
    ensures FactorOf([]) == FactorOf([""]) == FactorOf([[x]]) == FactorOf(["0"]) == None
  {
    ReadPrinted(k, "");
    assert Print(k) + "" == Print(k);
    assert !IsSpace(Print(k)[0]);
    assert (" " + Print(k))[1..] == Print(k);
    assert ("+" + Print(k))[1..] == Print(k);
    assert ("-" + Print(k))[1..] == Print(k);
    assert SkipSpace(" " + Print(k)) == Print(k);
    assert SkipSpace("+" + Print(k)) == "+" + Print(k);
    assert SkipSpace("-" + Print(k)) == "-" + Print(k);
    assert "0"[1..] == "";
  }

  /** The subscribed factor is the one the filter uses exactly when it fits an `int`; a
      larger one is silently replaced by the largest `int`. */
  lemma FactorIsFaithfulIff(k: nat)
    requires k >= 1
    ensures FactorOf([Print(k)]) == Some(k) <==> k <= INT_MAX
    ensures k > INT_MAX ==> FactorOf([Print(k)]) == Some(INT_MAX)
  {
    ReadPrinted(k, "");
    assert Print(k) + "" == Print(k);
    assert !IsSpace(Print(k)[0]);
  }
}
