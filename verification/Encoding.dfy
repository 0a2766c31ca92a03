/** Printing and parsing of numbers and bytes as the signed cookies and the kernel wire use them:
    `strconv` in base 10 and 16, lower-case hex, and unpadded base64url (RFC 4648, section 5). */
module Encoding {
  import opened Wrappers

  type Byte = b: int | 0 <= b < 256
  type Bytes = seq<Byte>

  // ---- digits ---------------------------------------------------------------------

  function DigitChar(d: nat): char
    requires d < 16
  {
    if d < 10 then (d + '0' as int) as char else (d - 10 + 'a' as int) as char
  }

  function DigitValue(c: char): nat {
    if '0' <= c <= '9' then c as int - '0' as int
    else if 'a' <= c <= 'z' then c as int - 'a' as int + 10
    else if 'A' <= c <= 'Z' then c as int - 'A' as int + 10
    else 36
  }

  /** The two bases the cookies print in. */
  type Base = b: nat | b == 10 || b == 16 witness 10

  function Quotient(n: nat, base: Base): nat {
    if base == 10 then n / 10 else n / 16
  }

  function LastDigit(n: nat, base: Base): (d: nat)
    ensures d < base && Quotient(n, base) * base + d == n
  {
    if base == 10 then n % 10 else n % 16
  }

  /** `strconv.FormatUint`: no leading zero, and "0" for zero. */
  function FormatUint(n: nat, base: Base): (s: string)
    ensures s != [] && forall c :: c in s ==> DigitValue(c) < base
    decreases n
  {
    if n < base then [DigitChar(n)] else FormatUint(Quotient(n, base), base) + [DigitChar(LastDigit(n, base))]
  }

  /** The value of a digit string, most significant digit first. */
  function Value(s: string, base: Base): nat
    requires forall c :: c in s ==> DigitValue(c) < base
  {
    if s == [] then 0 else Value(s[..|s| - 1], base) * base + DigitValue(s[|s| - 1])
  }

  /** `strconv.ParseUint` with an explicit base: an empty string, a foreign character or a value
      above `limit` is an error. */
  function ParseUint(s: string, base: Base, limit: nat): Option<nat> {
    if s == [] || exists c :: c in s && DigitValue(c) >= base then None
    else if Value(s, base) > limit then None
    else Some(Value(s, base))
  }

  const MAX_UINT64: nat := 0xFFFF_FFFF_FFFF_FFFF
  const MAX_INT64: int := 0x7FFF_FFFF_FFFF_FFFF

  predicate InInt64(n: int) {
    -MAX_INT64 - 1 <= n <= MAX_INT64
  }

  function FormatInt(n: int): string {
    if n < 0 then "-" + FormatUint(-n, 10) else FormatUint(n, 10)
  }

  /** `strconv.ParseInt` in base 10 and 64 bits: one optional sign, then digits. */
  function ParseInt(s: string): Option<int> {
    if s == [] then None
    else if s[0] == '-' then
      match ParseUint(s[1..], 10, MAX_INT64 + 1)
      case None => None
      case Some(n) => Some(-(n as int))
    else
      match ParseUint(if s[0] == '+' then s[1..] else s, 10, MAX_INT64)
      case None => None
      case Some(n) => Some(n)
  }

  lemma {:induction false} ValueOfFormat(n: nat, base: Base)
    ensures Value(FormatUint(n, base), base) == n
    decreases n
  {
    var last := DigitChar(if n < base then n else LastDigit(n, base));
    if n < base {
      assert [last][..0] == [];
    } else {
      var front := FormatUint(Quotient(n, base), base);
      ValueOfFormat(Quotient(n, base), base);
      assert (front + [last])[..|front|] == front;
    }
  }

  /** Every number within the limit is read back as printed, in base 10 and in base 16. */
  lemma UintRoundTrip(n: nat, base: Base, limit: nat)
    ensures ParseUint(FormatUint(n, base), base, limit) == if n <= limit then Some(n) else None
  {
    ValueOfFormat(n, base);
  }

  lemma IntRoundTrip(n: int)
    ensures ParseInt(FormatInt(n)) == if InInt64(n) then Some(n) else None
  {
    if n < 0 {
      UintRoundTrip(-n, 10, MAX_INT64 + 1);
      assert FormatInt(n)[1..] == FormatUint(-n, 10);
    } else {
      UintRoundTrip(n, 10, MAX_INT64);
      var s := FormatUint(n, 10);
      assert s[0] in s;
    }
  }

  lemma DigitsHaveNoDot(n: nat, base: Base)
    ensures '.' !in FormatUint(n, base)
  {}

  // ---- lower-case hex of bytes ------------------------------------------------------

  function Hex(bytes: Bytes): (s: string)
    ensures |s| == 2 * |bytes| && forall c :: c in s ==> c as int < 128
  {
    if bytes == [] then [] else [DigitChar(bytes[0] / 16), DigitChar(bytes[0] % 16)] + Hex(bytes[1..])
  }

  /** Two digits a byte, the higher one first. */
  lemma {:induction false} HexDigits(bytes: Bytes, i: nat)
    requires i < |bytes|
    ensures var s := Hex(bytes);
            && DigitValue(s[2 * i]) < 16 && DigitValue(s[2 * i + 1]) < 16
            && DigitValue(s[2 * i]) * 16 + DigitValue(s[2 * i + 1]) == bytes[i]
  {
    assert Hex(bytes)[2..] == Hex(bytes[1..]);
    if i > 0 {
      HexDigits(bytes[1..], i - 1);
      assert Hex(bytes)[2 * i] == Hex(bytes[1..])[2 * (i - 1)] && Hex(bytes)[2 * i + 1] == Hex(bytes[1..])[2 * (i - 1) + 1];
    }
  }

  /** Different digests are never printed alike. */
  lemma {:induction false} HexInjective(a: Bytes, b: Bytes)
    requires Hex(a) == Hex(b)
    ensures a == b
  {
    assert |Hex(a)| == 2 * |a| && |Hex(b)| == 2 * |b|;
    if a != [] {
      assert Hex(a)[0] == Hex(b)[0] && Hex(a)[1] == Hex(b)[1];
      assert a[0] / 16 == b[0] / 16 && a[0] % 16 == b[0] % 16;
      assert Hex(a)[2..] == Hex(a[1..]) && Hex(b)[2..] == Hex(b[1..]);
      HexInjective(a[1..], b[1..]);
      assert a == [a[0]] + a[1..] && b == [b[0]] + b[1..];
    }
  }

  // ---- unpadded base64url -------------------------------------------------------------

  type Sextet = v: int | 0 <= v < 64

  /** Bytes regrouped six bits at a time; the last sextet is filled up with zero bits. */
  function Sextets(bytes: Bytes): seq<Sextet> {
    if bytes == [] then []
    else if |bytes| == 1 then [bytes[0] / 4, bytes[0] % 4 * 16]
    else if |bytes| == 2 then [bytes[0] / 4, bytes[0] % 4 * 16 + bytes[1] / 16, bytes[1] % 16 * 4]
    else
      [bytes[0] / 4, bytes[0] % 4 * 16 + bytes[1] / 16, bytes[1] % 16 * 4 + bytes[2] / 64, bytes[2] % 64]
      + Sextets(bytes[3..])
  }

  /** The byte whose upper bits are the low bits of `v` and whose lower bits are the high bits of `w`:
      `keep` is 64, 16 or 4 for the first, second and third byte of a group. */
  function Joined(v: Sextet, w: Sextet, keep: nat): Byte
    requires keep == 64 || keep == 16 || keep == 4
  {
    if keep == 64 then v * 4 + w / 16
    else if keep == 16 then v % 16 * 16 + w / 4
    else v % 4 * 64 + w
  }

  /** Not strict: the unused low bits of the last sextet are ignored. */
  function FromSextets(v: seq<Sextet>): Option<Bytes> {
    if v == [] then Some([])
    else if |v| == 1 then None
    else if |v| == 2 then Some([Joined(v[0], v[1], 64)])
    else if |v| == 3 then Some([Joined(v[0], v[1], 64), Joined(v[1], v[2], 16)])
    else
      match FromSextets(v[4..])
      case None => None
      case Some(rest) => Some([Joined(v[0], v[1], 64), Joined(v[1], v[2], 16), Joined(v[2], v[3], 4)] + rest)
  }

  function SextetChar(v: Sextet): char {
    if v < 26 then (v + 'A' as int) as char
    else if v < 52 then (v - 26 + 'a' as int) as char
    else if v < 62 then (v - 52 + '0' as int) as char
    else if v == 62 then '-' else '_'
  }

  function SextetValue(c: char): Option<Sextet> {
    if 'A' <= c <= 'Z' then Some(c as int - 'A' as int)
    else if 'a' <= c <= 'z' then Some(c as int - 'a' as int + 26)
    else if '0' <= c <= '9' then Some(c as int - '0' as int + 52)
    else if c == '-' then Some(62)
    else if c == '_' then Some(63)
    else None
  }

  function Chars(v: seq<Sextet>): string {
    if v == [] then [] else [SextetChar(v[0])] + Chars(v[1..])
  }

  /** Go's decoder skips carriage returns and newlines wherever they are, and refuses any other
      character outside the alphabet. */
  function Values(s: string): Option<seq<Sextet>> {
    if s == [] then Some([])
    else if s[0] == '\r' || s[0] == '\n' then Values(s[1..])
    else
      match (SextetValue(s[0]), Values(s[1..]))
      case (Some(v), Some(rest)) => Some([v] + rest)
      case _ => None
  }

  function EncodeBase64(bytes: Bytes): string {
    Chars(Sextets(bytes))
  }

  function DecodeBase64(s: string): Option<Bytes> {
    match Values(s)
    case None => None
    case Some(v) => FromSextets(v)
  }

  lemma {:induction false} SextetsRoundTrip(bytes: Bytes)
    ensures FromSextets(Sextets(bytes)) == Some(bytes)
  {
    if |bytes| >= 3 {
      SextetsRoundTrip(bytes[3..]);
      assert Sextets(bytes)[4..] == Sextets(bytes[3..]);
      assert bytes == [bytes[0], bytes[1], bytes[2]] + bytes[3..];
    } else {
      assert bytes == if |bytes| == 0 then [] else if |bytes| == 1 then [bytes[0]] else [bytes[0], bytes[1]];
    }
  }

  lemma LetterRoundTrip(v: Sextet)
    ensures SextetValue(SextetChar(v)) == Some(v) && SextetChar(v) !in "\r\n"
  {}

  lemma {:induction false} CharsRoundTrip(v: seq<Sextet>)
    ensures Values(Chars(v)) == Some(v)
  {
    hide SextetValue, SextetChar;
    if v != [] {
      LetterRoundTrip(v[0]);
      CharsRoundTrip(v[1..]);
      assert Chars(v)[1..] == Chars(v[1..]);
      assert v == [v[0]] + v[1..];
    }
  }

  lemma Base64RoundTrip(bytes: Bytes)
    ensures DecodeBase64(EncodeBase64(bytes)) == Some(bytes)
  {
    SextetsRoundTrip(bytes);
    CharsRoundTrip(Sextets(bytes));
  }

  predicate IsLetter(c: char) {
    'A' <= c <= 'Z' || 'a' <= c <= 'z' || '0' <= c <= '9' || c == '-' || c == '_'
  }

  /** `s` without its line breaks. */
  function Unbroken(s: string): string {
    if s == [] then [] else (if s[0] == '\r' || s[0] == '\n' then [] else [s[0]]) + Unbroken(s[1..])
  }

  lemma {:induction false} ValuesIff(s: string)
    ensures Values(s).Some? <==> forall c :: c in Unbroken(s) ==> IsLetter(c)
    ensures Values(s).Some? ==> |Values(s).value| == |Unbroken(s)|
  {
    if s != [] {
      ValuesIff(s[1..]);
      var first: string := if s[0] == '\r' || s[0] == '\n' then [] else [s[0]];
      assert Unbroken(s) == first + Unbroken(s[1..]);
      assert first != [] ==> s[0] in Unbroken(s) && (SextetValue(s[0]).Some? <==> IsLetter(s[0]));
      assert forall c :: c in Unbroken(s[1..]) ==> c in Unbroken(s);
    }
  }

  lemma {:induction false} FromSextetsIff(v: seq<Sextet>)
    ensures FromSextets(v).Some? <==> |v| % 4 != 1
  {
    if |v| >= 4 {
      FromSextetsIff(v[4..]);
    }
  }

  /** What the decoder takes: apart from line breaks only the URL-safe alphabet, unpadded, and no lone letter
      in the last group. */
  lemma DecodableIff(s: string)
    ensures DecodeBase64(s).Some? <==> (forall c :: c in Unbroken(s) ==> IsLetter(c)) && |Unbroken(s)| % 4 != 1
  {
    ValuesIff(s);
    if Values(s).Some? {
      FromSextetsIff(Values(s).value);
    }
  }

  // ---- known values ----------------------------------------------------------------------------

  /** The test vectors of RFC 4648, section 10, unpadded, and the two letters of section 5. */
  lemma Base64Vectors()
    ensures EncodeBase64([]) == "" && EncodeBase64([0x66]) == "Zg" && EncodeBase64([0x66, 0x6f]) == "Zm8"
    ensures EncodeBase64([0x66, 0x6f, 0x6f]) == "Zm9v" && EncodeBase64([0x66, 0x6f, 0x6f, 0x62]) == "Zm9vYg"
    ensures EncodeBase64([0xfb, 0xff]) == "-_8"
  {}

  /** Numbers are printed in lower-case digits. */
  lemma PrintedSamples()
    ensures FormatUint(0, 16) == "0" && FormatUint(255, 16) == "ff" && FormatUint(480, 10) == "480" && FormatInt(-7) == "-7" && FormatInt(0) == "0"
  {
    assert FormatUint(480, 10) == FormatUint(48, 10) + "0" && FormatUint(48, 10) == FormatUint(4, 10) + "8";
  }

  /** And read in either case, with nothing around the digits. */
  lemma DigitSamples()
    ensures DigitValue('0') == 0 && DigitValue('9') == 9 && DigitValue('a') == DigitValue('A') == 10 && DigitValue('f') == DigitValue('F') == 15
    ensures forall c :: c in "/:@G`g+-. " ==> DigitValue(c) >= 16
  {}

  /** At least a digit, no sign for unsigned numbers, and at most one for signed ones. */
  lemma ReadSamples()
    ensures ParseUint("", 16, MAX_UINT64) == None && ParseUint("+1", 10, MAX_UINT64) == None
    ensures ParseInt("+1") == Some(1) && ParseInt("-") == None && ParseInt("--1") == None
  {
    hide FormatUint;
    assert "1"[..0] == "" && "--1"[1..] == "-1" && "-"[1..] == "" && "+1"[1..] == "1";
    assert '+' in "+1" && '-' in "-1";
  }
}
