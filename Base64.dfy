/** The `btoa` / `atob` pair the handlers use to build and take apart session
    tokens. `btoa` is the standard base64 of section 4 of RFC 4648 (alphabet
    A-Z a-z 0-9 + /, `=` padding) over a "binary string" whose characters are
    all below 256; any other character makes it throw. `atob` is the HTML
    "forgiving-base64 decode": ASCII whitespace is ignored, one or two trailing
    `=` may be left off, and a leftover single character is an error. */
module Base64 {
  import opened Common

  type Byte = x: int | 0 <= x < 256
  type Sextet = x: int | 0 <= x < 64

  predicate IsAlphabetChar(c: char)
  {
    ('A' <= c <= 'Z') || ('a' <= c <= 'z') || ('0' <= c <= '9') || c == '+' || c == '/'
  }

  predicate AllAlphabet(s: string)
  {
    forall i | 0 <= i < |s| :: IsAlphabetChar(s[i])
  }

  function ValueOf(c: char): Sextet
    requires IsAlphabetChar(c)
  {
    if 'A' <= c <= 'Z' then c as int - 'A' as int
    else if 'a' <= c <= 'z' then c as int - 'a' as int + 26
    else if '0' <= c <= '9' then c as int - '0' as int + 52
    else if c == '+' then 62
    else 63
  }

  /** The alphabet of section 4 of RFC 4648; each digit decodes back to itself. */
  function CharOf(v: Sextet): (c: char)
    ensures IsAlphabetChar(c) && ValueOf(c) == v
  {
    if v < 26 then ('A' as int + v) as char
    else if v < 52 then ('a' as int + (v - 26)) as char
    else if v < 62 then ('0' as int + (v - 52)) as char
    else if v == 62 then '+'
    else '/'
  }

  /** The base64 digits of `b`, without padding. */
  function EncodeRaw(b: seq<Byte>): string
    decreases |b|
  {
    if |b| == 0 then ""
    else if |b| == 1 then
      [CharOf(b[0] / 4), CharOf((b[0] % 4) * 16)]
    else if |b| == 2 then
      [CharOf(b[0] / 4), CharOf((b[0] % 4) * 16 + b[1] / 16), CharOf((b[1] % 16) * 4)]
    else
      [CharOf(b[0] / 4), CharOf((b[0] % 4) * 16 + b[1] / 16),
       CharOf((b[1] % 16) * 4 + b[2] / 64), CharOf(b[2] % 64)] + EncodeRaw(b[3..])
  }

  function Padding(n: nat): string
  {
    if n % 3 == 1 then "==" else if n % 3 == 2 then "=" else ""
  }

  function Encode(b: seq<Byte>): string
  {
    EncodeRaw(b) + Padding(|b|)
  }

  /** Inverse of EncodeRaw on unpadded base64 digits. */
  function DecodeRaw(s: string): seq<Byte>
    requires AllAlphabet(s) && |s| % 4 != 1
    decreases |s|
  {
    if |s| == 0 then []
    else if |s| == 2 then
      [ValueOf(s[0]) * 4 + ValueOf(s[1]) / 16]
    else if |s| == 3 then
      [ValueOf(s[0]) * 4 + ValueOf(s[1]) / 16, (ValueOf(s[1]) % 16) * 16 + ValueOf(s[2]) / 4]
    else
      [ValueOf(s[0]) * 4 + ValueOf(s[1]) / 16, (ValueOf(s[1]) % 16) * 16 + ValueOf(s[2]) / 4,
       (ValueOf(s[2]) % 4) * 64 + ValueOf(s[3])] + DecodeRaw(s[4..])
  }

  predicate IsBinary(s: string)
  {
    forall i | 0 <= i < |s| :: s[i] as int < 256
  }

  function ToBytes(s: string): (b: seq<Byte>)
    requires IsBinary(s)
    ensures |b| == |s|
  {
    seq(|s|, i requires 0 <= i < |s| => s[i] as int)
  }

  function FromBytes(b: seq<Byte>): (s: string)
    ensures |s| == |b| && IsBinary(s)
  {
    seq(|b|, i requires 0 <= i < |b| => b[i] as char)
  }

  /** `btoa`: fails (throws) on a character above 255. */
  function Btoa(s: string): (r: Option<string>)
    ensures r.Some? <==> IsBinary(s)
  {
    if IsBinary(s) then Some(Encode(ToBytes(s))) else None
  }

  /** TAB, LF, FF, CR and SPACE. */
  predicate IsAsciiWhitespace(c: char)
  {
    c == '\t' || c == '\n' || c as int == 12 || c == '\r' || c == ' '
  }

  function StripWhitespace(s: string): string
    decreases |s|
  {
    if |s| == 0 then ""
    else if IsAsciiWhitespace(s[0]) then StripWhitespace(s[1..])
    else [s[0]] + StripWhitespace(s[1..])
  }

  /** Step 2 of forgiving-base64: when the length is a multiple of four, drop
      one or two trailing `=`. */
  function StripPadding(s: string): string
  {
    if |s| % 4 == 0 && |s| >= 2 && s[|s| - 2] == '=' && s[|s| - 1] == '=' then s[..|s| - 2]
    else if |s| % 4 == 0 && |s| >= 1 && s[|s| - 1] == '=' then s[..|s| - 1]
    else s
  }

  /** `atob`: fails (throws) on a length of 1 modulo 4 after stripping, or on
      a character outside the alphabet. */
  function Atob(s: string): (r: Option<string>)
    ensures r.Some? ==> IsBinary(r.value)
  {
    var d := StripPadding(StripWhitespace(s));
    if |d| % 4 == 1 || !AllAlphabet(d) then None
    else Some(FromBytes(DecodeRaw(d)))
  }

  // ---------------------------------------------------------------------
  // Properties

  lemma Shift16(x: int, y: int)
    requires 0 <= y < 16
    ensures (x * 16 + y) / 16 == x && (x * 16 + y) % 16 == y
  {
  }

  lemma Shift4(x: int, y: int)
    requires 0 <= y < 4
    ensures (x * 4 + y) / 4 == x && (x * 4 + y) % 4 == y
  {
  }

  /** One group of three bytes survives encoding and decoding. */
  lemma GroupRoundTrip(b0: Byte, b1: Byte, b2: Byte)
    ensures (b0 / 4) * 4 + ((b0 % 4) * 16 + b1 / 16) / 16 == b0
    ensures (((b0 % 4) * 16 + b1 / 16) % 16) * 16 + ((b1 % 16) * 4 + b2 / 64) / 4 == b1
    ensures (((b1 % 16) * 4 + b2 / 64) % 4) * 64 + b2 % 64 == b2
  {
    Shift16(b0 % 4, b1 / 16);
    Shift4(b1 % 16, b2 / 64);
  }

  /** The decoder's first four-digit group undoes the encoder's first group. */
  lemma DecodeGroup(b: seq<Byte>)
    requires |b| >= 3
    ensures var s := EncodeRaw(b);
      |s| >= 4 && AllAlphabet(s[..4]) &&
      ValueOf(s[0]) * 4 + ValueOf(s[1]) / 16 == b[0] &&
      (ValueOf(s[1]) % 16) * 16 + ValueOf(s[2]) / 4 == b[1] &&
      (ValueOf(s[2]) % 4) * 64 + ValueOf(s[3]) == b[2] &&
      s[4..] == EncodeRaw(b[3..])
  {
    GroupRoundTrip(b[0], b[1], b[2]);
  }

  lemma {:induction false} EncodeRawAlphabet(b: seq<Byte>)
    ensures AllAlphabet(EncodeRaw(b))
    decreases |b|
  {
    if |b| >= 3 {
      EncodeRawAlphabet(b[3..]);
      var head := [CharOf(b[0] / 4), CharOf((b[0] % 4) * 16 + b[1] / 16),
                   CharOf((b[1] % 16) * 4 + b[2] / 64), CharOf(b[2] % 64)];
      assert EncodeRaw(b) == head + EncodeRaw(b[3..]);
      forall i | 0 <= i < |EncodeRaw(b)| ensures IsAlphabetChar(EncodeRaw(b)[i]) {
        if i >= 4 { assert EncodeRaw(b)[i] == EncodeRaw(b[3..])[i - 4]; }
      }
    }
  }

  lemma {:induction false} EncodeRawLength(b: seq<Byte>)
    ensures |EncodeRaw(b)| == (|b| / 3) * 4 + (if |b| % 3 == 0 then 0 else |b| % 3 + 1)
    decreases |b|
  {
    if |b| >= 3 {
      EncodeRawLength(b[3..]);
      assert |b[3..]| / 3 == |b| / 3 - 1 && |b[3..]| % 3 == |b| % 3;
    }
  }

  /** The unpadded digits: all from the alphabet, four per full group and
      one more than the leftover bytes otherwise. */
  lemma EncodeRawShape(b: seq<Byte>)
    ensures AllAlphabet(EncodeRaw(b))
    ensures |EncodeRaw(b)| == (|b| / 3) * 4 + (if |b| % 3 == 0 then 0 else |b| % 3 + 1)
    ensures |EncodeRaw(b)| % 4 != 1
  {
    EncodeRawAlphabet(b);
    EncodeRawLength(b);
    EncodedLengthMod(|b|);
  }

  lemma DecodeShort(b: seq<Byte>)
    requires 1 <= |b| <= 2
    ensures AllAlphabet(EncodeRaw(b)) && |EncodeRaw(b)| % 4 != 1
    ensures DecodeRaw(EncodeRaw(b)) == b
  {
    if |b| == 1 {
      Shift16(b[0] % 4, 0);
    } else {
      GroupRoundTrip(b[0], b[1], 0);
    }
  }

  lemma DecodeStep(s: string)
    requires AllAlphabet(s) && |s| % 4 != 1 && |s| >= 4
    ensures AllAlphabet(s[4..])
    ensures DecodeRaw(s) ==
      [ValueOf(s[0]) * 4 + ValueOf(s[1]) / 16, (ValueOf(s[1]) % 16) * 16 + ValueOf(s[2]) / 4,
       (ValueOf(s[2]) % 4) * 64 + ValueOf(s[3])] + DecodeRaw(s[4..])
  {
  }

  /** An encoded length never leaves a single digit over. */
  lemma EncodedLengthMod(n: nat)
    ensures ((n / 3) * 4 + (if n % 3 == 0 then 0 else n % 3 + 1)) % 4 != 1
  {
    var q := n / 3;
    assert (q * 4 + (if n % 3 == 0 then 0 else n % 3 + 1)) % 4 == (if n % 3 == 0 then 0 else n % 3 + 1);
  }

  /** A full first group decodes back, given that the rest does. */
  lemma DecodeEncodeGroup(b: seq<Byte>)
    requires |b| >= 3
    requires AllAlphabet(EncodeRaw(b)) && |EncodeRaw(b)| % 4 != 1
    requires AllAlphabet(EncodeRaw(b[3..])) && |EncodeRaw(b[3..])| % 4 != 1
    requires DecodeRaw(EncodeRaw(b[3..])) == b[3..]
    ensures DecodeRaw(EncodeRaw(b)) == b
  {
    var s := EncodeRaw(b);
    DecodeGroup(b);
    DecodeStep(s);
    assert DecodeRaw(s) == [b[0], b[1], b[2]] + b[3..];
    assert b == [b[0], b[1], b[2]] + b[3..];
  }

  /** Decoding the unpadded digits gives back the bytes. */
  lemma {:induction false} DecodeEncodeRaw(b: seq<Byte>)
    ensures AllAlphabet(EncodeRaw(b)) && |EncodeRaw(b)| % 4 != 1
    ensures DecodeRaw(EncodeRaw(b)) == b
    decreases |b|
  {
    EncodeRawShape(b);
    if 1 <= |b| <= 2 {
      DecodeShort(b);
    } else if |b| >= 3 {
      DecodeEncodeRaw(b[3..]);
      DecodeEncodeGroup(b);
    }
  }

  lemma {:induction false} NoWhitespaceStrip(s: string)
    requires AllAlphabet(s) || (forall i | 0 <= i < |s| :: IsAlphabetChar(s[i]) || s[i] == '=')
    ensures StripWhitespace(s) == s
    decreases |s|
  {
    if |s| > 0 {
      NoWhitespaceStrip(s[1..]);
      assert [s[0]] + s[1..] == s;
    }
  }

  lemma PaddingStrips(raw: string, n: nat)
    requires AllAlphabet(raw)
    requires |raw| == (n / 3) * 4 + (if n % 3 == 0 then 0 else n % 3 + 1)
    ensures StripPadding(raw + Padding(n)) == raw
  {
    var e := raw + Padding(n);
    if n % 3 == 1 {
      assert e[..|e| - 2] == raw;
    } else if n % 3 == 2 {
      assert e[|e| - 2] == raw[|raw| - 1];
      assert e[..|e| - 1] == raw;
    } else {
      assert e == raw;
      if |raw| > 0 { assert IsAlphabetChar(e[|e| - 1]); }
    }
  }

  /** decode∘encode is the identity on bytes. */
  lemma DecodeEncode(b: seq<Byte>)
    ensures Atob(Encode(b)) == Some(FromBytes(b))
  {
    DecodeEncodeRaw(b);
    EncodeRawShape(b);
    var raw := EncodeRaw(b);
    var e := Encode(b);
    NoWhitespaceStrip(e);
    PaddingStrips(raw, |b|);
  }

  lemma BytesRoundTrip(s: string)
    requires IsBinary(s)
    ensures FromBytes(ToBytes(s)) == s
  {
  }

  /** `atob(btoa(s)) == s` for every string `btoa` accepts. */
  lemma AtobBtoa(s: string)
    requires IsBinary(s)
    ensures Btoa(s).Some? && Atob(Btoa(s).value) == Some(s)
  {
    DecodeEncode(ToBytes(s));
    BytesRoundTrip(s);
  }

  /** Every character `btoa` produces is a base64 digit or the `=` pad. */
  lemma EncodeChars(b: seq<Byte>)
    ensures forall i | 0 <= i < |Encode(b)| :: IsAlphabetChar(Encode(b)[i]) || Encode(b)[i] == '='
  {
    EncodeRawShape(b);
    var raw := EncodeRaw(b);
    forall i | 0 <= i < |Encode(b)| ensures IsAlphabetChar(Encode(b)[i]) || Encode(b)[i] == '=' {
      if i < |raw| { assert Encode(b)[i] == raw[i]; }
    }
  }

  /** The output of `btoa` has no '.' (so a '.' separator in a token never
      comes from inside a base64 segment) and is itself a binary string (so
      `btoa` can be applied to it again). */
  lemma BtoaOutput(s: string)
    requires IsBinary(s)
    ensures forall i | 0 <= i < |Btoa(s).value| :: Btoa(s).value[i] != '.'
    ensures IsBinary(Btoa(s).value)
  {
    EncodeChars(ToBytes(s));
  }

  lemma BinaryConcat(a: string, b: string)
    requires IsBinary(a) && IsBinary(b)
    ensures IsBinary(a + b)
  {
    forall i | 0 <= i < |a + b| ensures (a + b)[i] as int < 256 {
      if i >= |a| { assert (a + b)[i] == b[i - |a|]; }
    }
  }

  /** The encoded length is four characters per started group of three. */
  lemma EncodeLength(b: seq<Byte>)
    ensures |Encode(b)| == ((|b| + 2) / 3) * 4
  {
    EncodeRawShape(b);
  }
}
