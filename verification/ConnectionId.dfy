/** Connection ids: 16-byte identities that travel as text inside a filter expression. */
module ConnectionId {
  import opened Common

  type Byte = b: int | 0 <= b < 256

  const LENGTH: nat := 16

  /** A middleware identity: exactly sixteen bytes. */
  type Guid = g: seq<Byte> | |g| == LENGTH witness seq(LENGTH, _ => 0)

  const UNKNOWN: Guid := seq(LENGTH, _ => 0)

  datatype ParseResult = Parsed(id: Guid) | OutOfRange | InvalidArgument

  // ----- Hexadecimal digits ---------------------------------------------------

  const HEX_DIGITS := "0123456789abcdef"

  function HexDigit(n: nat): (c: char)
    requires n < 16
    ensures c as int == if n < 10 then '0' as int + n else 'a' as int + n - 10
  {
    HEX_DIGITS[n]
  }

  /** The value of a hexadecimal digit of either case, or -1. */
  function HexValue(c: char): (v: int)
    ensures -1 <= v < 16
  {
    if '0' <= c <= '9' then c as int - '0' as int
    else if 'a' <= c <= 'f' then c as int - 'a' as int + 10
    else if 'A' <= c <= 'F' then c as int - 'A' as int + 10
    else -1
  }

  predicate LowerHex(c: char) { '0' <= c <= '9' || 'a' <= c <= 'f' }

  lemma DigitRoundTrip(n: nat)
    requires n < 16
    ensures HexValue(HexDigit(n)) == n && LowerHex(HexDigit(n))
  {
  }

  /** The digits above nine also read in upper case. */
  lemma UpperDigit(n: nat)
    requires 10 <= n < 16
    ensures HexValue(('A' as int + n - 10) as char) == n
  {
  }

  /** Other texts that read as the digit `n`, or as its negative; and those that do not
      read at all. `x` is any character that is no digit. */
  lemma AliasesOfDigit(n: nat, x: char)
    requires n < 16 && HexValue(x) < 0
    ensures
      var d := HexDigit(n);
      && StoiHex([d]) == StoiHex([d, x]) == StoiHex([' ', d]) == StoiHex(['+', d]) == (true, n)
      && StoiHex(['-', d]).0 && StoiHex(['-', d]).1 == 0 - n
    ensures !StoiHex("").0 && !StoiHex([x]).0 && !StoiHex(['+', x]).0 && !StoiHex(['-', x]).0
  {
    DigitRoundTrip(n);
    var d := HexDigit(n);
    assert [' ', d][1..] == [d];
    assert [x][1..] == [];
  }

  lemma DigitOfValue(c: char)
    ensures HexValue(c) >= 0 && HexDigit(HexValue(c)) == c <==> LowerHex(c)
  {
  }

  // ----- std::stoi(s, nullptr, 16) on at most two characters ------------------

  /** White space first, then one optional sign, then the longest run of digits; a `0x`
      prefix cannot be followed by a digit here, so it reads as the digit zero. Without
      any digit the conversion throws. */
  function StoiHex(s: string): (r: (bool, int))
    requires |s| <= 2
    decreases |s|
  {
    if s == [] then (false, 0)
    else if IsSpace(s[0]) then StoiHex(s[1..])
    else if s[0] == '+' || s[0] == '-' then
      if |s| == 2 && HexValue(s[1]) >= 0
      then (true, if s[0] == '-' then -HexValue(s[1]) else HexValue(s[1]))
      else (false, 0)
    else if HexValue(s[0]) < 0 then (false, 0)
    else if |s| == 2 && HexValue(s[1]) >= 0 then (true, 16 * HexValue(s[0]) + HexValue(s[1]))
    else (true, HexValue(s[0]))
  }

  /** `substr(2 * i, 2)`, which may be shorter at the end of the text. */
  function PairAt(text: string, i: nat): (p: string)
    requires 2 * i <= |text|
    ensures |p| <= 2
  {
    text[2 * i..if 2 * i + 2 <= |text| then 2 * i + 2 else |text|]
  }

  // ----- The specification of printing and parsing ----------------------------

  function PrintByte(b: Byte): (s: string)
    ensures |s| == 2
  {
    [HexDigit(b / 16), HexDigit(b % 16)]
  }

  function PrintBytes(g: seq<Byte>): (s: string)
    ensures |s| == 2 * |g|
  {
    if g == [] then "" else PrintBytes(g[..|g| - 1]) + PrintByte(g[|g| - 1])
  }

  /** The conversion of byte `i`; assigning to a byte keeps the value modulo 256. */
  function ParseFrom(text: string, done: seq<Byte>): (r: ParseResult)
    requires |done| <= LENGTH
    decreases LENGTH - |done|
  {
    if |done| == LENGTH then Parsed(done)
    else if |text| < 2 * |done| then OutOfRange
    else
      var (ok, v) := StoiHex(PairAt(text, |done|));
      if ok then ParseFrom(text, done + [v % 256]) else InvalidArgument
  }

  function Parse(text: string): ParseResult { ParseFrom(text, []) }

  // ----- The loops ------------------------------------------------------------

  method ToString(id: Guid) returns (text: string)
    ensures text == PrintBytes(id)
  {
    text := "";
    for i := 0 to LENGTH
      invariant text == PrintBytes(id[..i])
    {
      assert id[..i + 1][..i] == id[..i];
      text := text + [HexDigit(id[i] / 16), HexDigit(id[i] % 16)];
    }
    assert id[..LENGTH] == id;
  }

  method FromString(text: string) returns (r: ParseResult)
    ensures r == Parse(text)
  {
    var id: seq<Byte> := [];
    while |id| < LENGTH
      invariant |id| <= LENGTH
      invariant Parse(text) == ParseFrom(text, id)
    {
      if |text| < 2 * |id| { return OutOfRange; }
      var (ok, v) := StoiHex(PairAt(text, |id|));
      if !ok { return InvalidArgument; }
      id := id + [v % 256];
    }
    r := Parsed(id);
  }

  /** The vector constructor: any other length leaves the id at its default. */
  method FromVector(v: seq<Byte>) returns (id: Guid)
    ensures id == if |v| == LENGTH then v else UNKNOWN
  {
    id := UNKNOWN;
    if |v| == LENGTH {
      for i := 0 to LENGTH
        invariant id[..i] == v[..i]
      {
        id := id[i := v[i]];
        assert id[..i + 1] == v[..i + 1];
      }
      assert id[..LENGTH] == id && v[..LENGTH] == v;
    }
  }

  // ----- Round trips ----------------------------------------------------------

  lemma {:induction false} PrintedAt(g: seq<Byte>, i: nat)
    requires i < |g|
    ensures PrintBytes(g)[2 * i..2 * i + 2] == PrintByte(g[i])
  {
    var n := |g| - 1;
    if i < n {
      PrintedAt(g[..n], i);
      assert PrintBytes(g)[2 * i..2 * i + 2] == PrintBytes(g[..n])[2 * i..2 * i + 2];
    }
  }

  lemma PrintedByteParses(b: Byte)
    ensures StoiHex(PrintByte(b)) == (true, b)
  {
    DigitRoundTrip(b / 16);
    DigitRoundTrip(b % 16);
    var c := HexDigit(b / 16);
    assert !IsSpace(c) && c != '+' && c != '-';
    assert b == 16 * (b / 16) + b % 16;
  }

  /** Pair `i` of the text reads as byte `i` of `g`. */
  ghost predicate PairReads(text: string, g: Guid, i: nat)
    requires i < LENGTH
  {
    2 * i <= |text| && StoiHex(PairAt(text, i)) == (true, g[i])
  }

  lemma PrintedPairParses(g: Guid, k: nat)
    requires k < LENGTH
    ensures PairReads(PrintBytes(g), g, k)
  {
    PrintedAt(g, k);
    PrintedByteParses(g[k]);
  }

  /** A text whose sixteen pairs read as the bytes of `g` parses to `g`. */
  lemma {:induction false} ParsePairs(text: string, g: Guid, k: nat)
    requires k <= LENGTH
    requires forall i | 0 <= i < LENGTH :: PairReads(text, g, i)
    ensures ParseFrom(text, g[..k]) == Parsed(g)
    decreases LENGTH - k
  {
    if k == LENGTH {
      assert g[..k] == g;
    } else {
      assert PairReads(text, g, k);
      assert g[..k] + [g[k]] == g[..k + 1];
      ParsePairs(text, g, k + 1);
    }
  }

  /** Every sixteen-byte id survives being printed and parsed again. */
  lemma PrintParse(g: Guid)
    ensures Parse(PrintBytes(g)) == Parsed(g)
  {
    forall k | 0 <= k < LENGTH ensures PairReads(PrintBytes(g), g, k) {
      PrintedPairParses(g, k);
    }
    ParsePairs(PrintBytes(g), g, 0);
    assert g[..0] == [];
  }

  /** Two ids never share their text. */
  lemma PrintInjective(a: Guid, b: Guid)
    ensures PrintBytes(a) == PrintBytes(b) <==> a == b
  {
    PrintParse(a);
    PrintParse(b);
  }

  lemma {:induction false} ParseTakesBytes(text: string, done: seq<Byte>)
    requires |done| <= LENGTH && ParseFrom(text, done).Parsed?
    ensures var g := ParseFrom(text, done).id;
      && done <= g
      && (forall i | |done| <= i < LENGTH ::
            2 * i <= |text| && StoiHex(PairAt(text, i)).0 && g[i] == StoiHex(PairAt(text, i)).1 % 256)
    decreases LENGTH - |done|
  {
    if |done| < LENGTH {
      var (ok, v) := StoiHex(PairAt(text, |done|));
      ParseTakesBytes(text, done + [v % 256]);
      var g := ParseFrom(text, done).id;
      assert (done + [v % 256])[|done|] == v % 256;
    }
  }

  /** The outcome `r` of reading `s` prints back to `s`. */
  predicate PrintsBack(s: string, r: (bool, int)) { r.0 && PrintByte(r.1 % 256) == s }

  predicate LowerPair(s: string) { |s| == 2 && LowerHex(s[0]) && LowerHex(s[1]) }

  /** A text parses exactly if all sixteen pairs are there and read as numbers; the last
      pair may be a single character, and anything after it is ignored. */
  lemma ParsesIff(text: string)
    ensures Parse(text).Parsed? <==>
      |text| > 2 * (LENGTH - 1) && forall i | 0 <= i < LENGTH :: StoiHex(PairAt(text, i)).0
  {
    if Parse(text).Parsed? {
      ParseTakesBytes(text, []);
      assert StoiHex(PairAt(text, LENGTH - 1)).0;
    } else if |text| > 2 * (LENGTH - 1) && forall i | 0 <= i < LENGTH :: StoiHex(PairAt(text, i)).0 {
      ReadablePairsParse(text, []);
    }
  }

  lemma {:induction false} ReadablePairsParse(text: string, done: seq<Byte>)
    requires |done| <= LENGTH && |text| > 2 * (LENGTH - 1)
    requires forall i | 0 <= i < LENGTH :: StoiHex(PairAt(text, i)).0
    ensures ParseFrom(text, done).Parsed?
    decreases LENGTH - |done|
  {
    if |done| < LENGTH {
      var (ok, v) := StoiHex(PairAt(text, |done|));
      assert ok;
      ReadablePairsParse(text, done + [v % 256]);
    }
  }

  lemma PairPrintsBackIff(s: string)
    requires |s| <= 2
    ensures PrintsBack(s, StoiHex(s)) <==> LowerPair(s)
  {
    if LowerPair(s) {
      var b := LowerPairReads(s);
      LowerPairPrintsBack(s, b);
      ByteOfByte(s, StoiHex(s), b);
    } else {
      OnlyLowerIsPrinted(s, StoiHex(s));
    }
  }

  lemma ByteOfByte(s: string, r: (bool, int), b: Byte)
    requires r == (true, b) && PrintByte(b) == s
    ensures PrintsBack(s, r)
  {
    assert b % 256 == b;
  }

  lemma OnlyLowerIsPrinted(s: string, r: (bool, int))
    ensures PrintsBack(s, r) ==> LowerPair(s)
  {
    PrintedByteIsLower(r.1 % 256);
  }

  lemma LowerPairReads(s: string) returns (b: Byte)
    requires LowerPair(s)
    ensures HexValue(s[0]) >= 0 && HexValue(s[1]) >= 0
    ensures b == 16 * HexValue(s[0]) + HexValue(s[1]) && StoiHex(s) == (true, b)
  {
    b := 16 * HexValue(s[0]) + HexValue(s[1]);
  }

  lemma LowerPairPrintsBack(s: string, b: Byte)
    requires LowerPair(s)
    requires b == 16 * HexValue(s[0]) + HexValue(s[1])
    ensures PrintByte(b) == s
  {
    DigitOfValue(s[0]);
    DigitOfValue(s[1]);
    var high, low := HexValue(s[0]), HexValue(s[1]);
    assert b / 16 == high && b % 16 == low;
  }

  lemma PrintedByteIsLower(b: Byte)
    ensures LowerHex(PrintByte(b)[0]) && LowerHex(PrintByte(b)[1])
  {
    DigitRoundTrip(b / 16);
    DigitRoundTrip(b % 16);
  }

  ghost predicate Canonical(text: string) {
    |text| == 2 * LENGTH && forall c | c in text :: LowerHex(c)
  }

  lemma {:induction false} PrintIsCanonical(g: seq<Byte>)
    ensures forall c | c in PrintBytes(g) :: LowerHex(c)
  {
    if g != [] {
      PrintIsCanonical(g[..|g| - 1]);
      DigitRoundTrip(g[|g| - 1] / 16);
      DigitRoundTrip(g[|g| - 1] % 16);
    }
  }

  /** Pair `i` of a canonical text is printed back as it was. */
  lemma CanonicalPair(text: string, i: nat)
    requires Canonical(text) && i < LENGTH && Parse(text).Parsed?
    ensures PrintBytes(Parse(text).id)[2 * i..2 * i + 2] == text[2 * i..2 * i + 2]
  {
    ParseTakesBytes(text, []);
    PrintedAt(Parse(text).id, i);
    assert text[2 * i] in text && text[2 * i + 1] in text;
    PairPrintsBackIff(PairAt(text, i));
  }

  lemma SamePairs(a: string, b: string)
    requires |a| == |b| == 2 * LENGTH
    requires forall i | 0 <= i < LENGTH :: a[2 * i..2 * i + 2] == b[2 * i..2 * i + 2]
    ensures a == b
  {
    forall k | 0 <= k < |a| ensures a[k] == b[k] {
      var i := k / 2;
      assert a[k] == a[2 * i..2 * i + 2][k - 2 * i];
      assert b[k] == b[2 * i..2 * i + 2][k - 2 * i];
    }
  }

  lemma CanonicalPrintsBack(text: string)
    requires Canonical(text)
    ensures Parse(text).Parsed? && PrintBytes(Parse(text).id) == text
  {
    CanonicalParses(text, []);
    var printed := PrintBytes(Parse(text).id);
    forall i | 0 <= i < LENGTH ensures printed[2 * i..2 * i + 2] == text[2 * i..2 * i + 2] {
      CanonicalPair(text, i);
    }
    SamePairs(printed, text);
  }

  /** A text is the print of the id it parses to exactly when it is 32 lower-case
      hexadecimal digits; all other texts that parse are aliases of a printed one. */
  lemma ParsePrintIff(text: string)
    ensures Parse(text).Parsed? && PrintBytes(Parse(text).id) == text <==> Canonical(text)
  {
    if Canonical(text) {
      CanonicalPrintsBack(text);
    } else if Parse(text).Parsed? {
      PrintIsCanonical(Parse(text).id);
    }
  }

  lemma {:induction false} CanonicalParses(text: string, done: seq<Byte>)
    requires Canonical(text) && |done| <= LENGTH
    ensures ParseFrom(text, done).Parsed?
    decreases LENGTH - |done|
  {
    if |done| < LENGTH {
      PairPrintsBackIff(PairAt(text, |done|));
      var (ok, v) := StoiHex(PairAt(text, |done|));
      CanonicalParses(text, done + [v % 256]);
    }
  }
}
