/** The claims carried in the middle segment of a session token, and the text
    they are serialised to before base64. The serialisation stands in for
    `JSON.stringify` of `{userId, email, role, exp}` (same key order, decimal
    numbers, quoted strings escaped as `JSON.stringify` escapes them); the
    parser stands in for `JSON.parse` of such strings. */
module Claims {
  import opened Common
  import opened Strings

  datatype Claims = Claims(userId: nat, email: string, role: string, exp: Option<nat>)

  /** `JSON.stringify({ alg: "HS256", typ: "JWT" })`. */
  const HeaderJson: string := "{\"alg\":\"HS256\",\"typ\":\"JWT\"}"

  predicate IsDigit(c: char) { '0' <= c <= '9' }

  predicate AllDigits(s: string)
  {
    forall i | 0 <= i < |s| :: IsDigit(s[i])
  }

  function Digit(d: nat): (c: char)
    requires d < 10
    ensures IsDigit(c) && c as int - '0' as int == d
  {
    ('0' as int + d) as char
  }

  /** Decimal text of a natural number. */
  function NatText(n: nat): (s: string)
    decreases n
  {
    if n < 10 then [Digit(n)] else NatText(n / 10) + [Digit(n % 10)]
  }

  function DigitsValue(ds: string): nat
    requires AllDigits(ds)
    decreases |ds|
  {
    if |ds| == 0 then 0
    else DigitsValue(ds[..|ds| - 1]) * 10 + (ds[|ds| - 1] as int - '0' as int)
  }

  /** Length of the run of digits at the front of `s`. */
  function DigitRun(s: string): (k: nat)
    ensures k <= |s| && AllDigits(s[..k])
    ensures k < |s| ==> !IsDigit(s[k])
    decreases |s|
  {
    if |s| == 0 || !IsDigit(s[0]) then 0
    else
      var k := 1 + DigitRun(s[1..]);
      assert s[..k] == [s[0]] + s[1..][..k - 1];
      k
  }

  function ParseNat(s: string): Option<(nat, string)>
  {
    var k := DigitRun(s);
    if k == 0 then None else Some((DigitsValue(s[..k]), s[k..]))
  }

  /** The lower-case hex digit `JSON.stringify` writes in a `\u00XX` escape. */
  function HexDigit(d: nat): (c: char)
    requires d < 16
    ensures HexValue(c) == Some(d)
  {
    if d < 10 then ('0' as int + d) as char else ('a' as int + (d - 10)) as char
  }

  /** The value of a hex digit of either case, as `JSON.parse` reads it. */
  function HexValue(c: char): (v: Option<nat>)
    ensures v.Some? ==> v.value < 16
  {
    if '0' <= c <= '9' then Some(c as int - '0' as int)
    else if 'a' <= c <= 'f' then Some(c as int - 'a' as int + 10)
    else if 'A' <= c <= 'F' then Some(c as int - 'A' as int + 10)
    else None
  }

  /** The code unit written by four hex digits. */
  function HexCode(h: string): (v: Option<nat>)
    requires |h| == 4
    ensures v.Some? ==> v.value < 0x1_0000
  {
    var a :- HexValue(h[0]);
    var b :- HexValue(h[1]);
    var c :- HexValue(h[2]);
    var d :- HexValue(h[3]);
    Some(((a * 16 + b) * 16 + c) * 16 + d)
  }

  /** The control characters with a two-character escape: backspace, tab,
      line feed, form feed and carriage return. */
  function ShortEscape(c: char): Option<char>
  {
    if c as int == 8 then Some('b')
    else if c as int == 9 then Some('t')
    else if c as int == 10 then Some('n')
    else if c as int == 12 then Some('f')
    else if c as int == 13 then Some('r')
    else None
  }

  /** The character a two-character escape `\e` stands for in `JSON.parse`. */
  function Unescape(e: char): Option<char>
  {
    if e == '"' || e == '\\' || e == '/' then Some(e)
    else if e == 'b' then Some(8 as char)
    else if e == 't' then Some(9 as char)
    else if e == 'n' then Some(10 as char)
    else if e == 'f' then Some(12 as char)
    else if e == 'r' then Some(13 as char)
    else None
  }

  /** `"` and `\` get a backslash, the five common controls their letter,
      the other characters below U+0020 `\u00XX`, and the rest stays. */
  function EscapeChar(c: char): (e: string)
    ensures forall i | 0 <= i < |e| :: ' ' <= e[i]
    ensures ' ' <= c && c != '"' && c != '\\' ==> e == [c]
  {
    if c == '"' || c == '\\' then ['\\', c]
    else if ShortEscape(c).Some? then ['\\', ShortEscape(c).value]
    else if c < ' ' then ['\\', 'u', '0', '0', HexDigit(c as int / 16), HexDigit(c as int % 16)]
    else [c]
  }

  function Escape(s: string): string
    decreases |s|
  {
    if |s| == 0 then "" else EscapeChar(s[0]) + Escape(s[1..])
  }

  function Quote(s: string): string
  {
    "\"" + Escape(s) + "\""
  }

  /** Reads the inside of a quoted string up to its closing quote. A raw
      control character or an unknown escape is refused, as `JSON.parse`
      throws on them; a `\u` escape of a lone surrogate half is refused too
      (a `char` here is a Unicode scalar value). */
  function ParseQuoted(s: string): Option<(string, string)>
    decreases |s|
  {
    if |s| == 0 then None
    else if s[0] == '"' then Some(("", s[1..]))
    else if s[0] < ' ' then None
    else if s[0] == '\\' then
      if |s| < 2 then None
      else if s[1] == 'u' then
        if |s| < 6 then None
        else
          var code :- HexCode(s[2..6]);
          if 0xD800 <= code < 0xE000 then None
          else
            var (t, rest) :- ParseQuoted(s[6..]);
            Some(([code as char] + t, rest))
      else
        var c :- Unescape(s[1]);
        var (t, rest) :- ParseQuoted(s[2..]);
        Some(([c] + t, rest))
    else
      var (t, rest) :- ParseQuoted(s[1..]);
      Some(([s[0]] + t, rest))
  }

  function ParseString(s: string): Option<(string, string)>
  {
    if |s| > 0 && s[0] == '"' then ParseQuoted(s[1..]) else None
  }

  /** Consumes the literal `lit` at the front of `s`. */
  function Expect(lit: string, s: string): Option<string>
  {
    if StartsWith(s, lit) then Some(s[|lit|..]) else None
  }

  function ExpText(exp: Option<nat>): string
  {
    match exp
    case None => ""
    case Some(e) => ",\"exp\":" + NatText(e)
  }

  /** The userId, email and role members, up to the optional exp member. */
  function HeadJson(c: Claims): string
  {
    "{\"userId\":" + (NatText(c.userId) + (",\"email\":" + (Quote(c.email)
      + (",\"role\":" + Quote(c.role)))))
  }

  function ClaimsJson(c: Claims): string
  {
    HeadJson(c) + (ExpText(c.exp) + "}")
  }

  function ParseHead(s: string): Option<(nat, string, string, string)>
  {
    var s1 :- Expect("{\"userId\":", s);
    var (id, s2) :- ParseNat(s1);
    var s3 :- Expect(",\"email\":", s2);
    var (email, s4) :- ParseString(s3);
    var s5 :- Expect(",\"role\":", s4);
    var (role, s6) :- ParseString(s5);
    Some((id, email, role, s6))
  }

  function ParseExpTail(s: string): Option<Option<nat>>
  {
    if s == "}" then Some(None)
    else
      var s1 :- Expect(",\"exp\":", s);
      var (exp, s2) :- ParseNat(s1);
      if s2 == "}" then Some(Some(exp)) else None
  }

  function ParseClaims(s: string): Option<Claims>
  {
    var (id, email, role, rest) :- ParseHead(s);
    var exp :- ParseExpTail(rest);
    Some(Claims(id, email, role, exp))
  }

  // ---------------------------------------------------------------------
  // Properties

  lemma {:induction false} NatTextDigits(n: nat)
    ensures |NatText(n)| >= 1 && AllDigits(NatText(n))
    decreases n
  {
    if n >= 10 { NatTextDigits(n / 10); }
  }

  /** The decimal text reads back as the number. */
  lemma {:induction false} NatTextValue(n: nat)
    ensures AllDigits(NatText(n)) && DigitsValue(NatText(n)) == n
    decreases n
  {
    NatTextDigits(n);
    if n >= 10 {
      NatTextValue(n / 10);
      var s := NatText(n);
      assert s[..|s| - 1] == NatText(n / 10);
    }
  }

  lemma {:induction false} DigitRunOf(ds: string, rest: string)
    requires AllDigits(ds)
    requires |rest| == 0 || !IsDigit(rest[0])
    ensures DigitRun(ds + rest) == |ds|
    decreases |ds|
  {
    if |ds| > 0 {
      assert (ds + rest)[1..] == ds[1..] + rest;
      DigitRunOf(ds[1..], rest);
    }
  }

  /** A number followed by a non-digit parses back to itself and what follows. */
  lemma ParseNatText(n: nat, rest: string)
    requires |rest| == 0 || !IsDigit(rest[0])
    ensures ParseNat(NatText(n) + rest) == Some((n, rest))
  {
    NatTextValue(n);
    NatTextDigits(n);
    var s := NatText(n) + rest;
    DigitRunOf(NatText(n), rest);
    assert s[..|NatText(n)|] == NatText(n);
    assert s[|NatText(n)|..] == rest;
  }

  /** One escaped character in front of a parsable body parses back to
      itself in front of that body's text. */
  lemma ParseEscapedChar(c: char, tail: string, t: string, rest: string)
    requires ParseQuoted(tail) == Some((t, rest))
    ensures ParseQuoted(EscapeChar(c) + tail) == Some(([c] + t, rest))
  {
    var s := EscapeChar(c) + tail;
    if c == '"' || c == '\\' {
      assert s[0] == '\\' && s[1] == c && s[2..] == tail;
    } else if ShortEscape(c).Some? {
      assert s[0] == '\\' && s[1] == ShortEscape(c).value && s[2..] == tail;
      assert Unescape(ShortEscape(c).value) == Some(c);
    } else if c < ' ' {
      UnicodeEscape(c, tail);
    } else {
      assert s[0] == c && s[1..] == tail;
    }
  }

  /** A `\u00XX` escape reads back as its control character. */
  lemma UnicodeEscape(c: char, tail: string)
    requires c < ' ' && c != '"' && c != '\\' && ShortEscape(c).None?
    ensures var s := EscapeChar(c) + tail;
      && |s| >= 6 && s[0] == '\\' && s[1] == 'u' && HexCode(s[2..6]) == Some(c as int) && s[6..] == tail
  {
    var s := EscapeChar(c) + tail;
    var hi, lo := c as int / 16, c as int % 16;
    assert s[2..6] == ['0', '0', HexDigit(hi), HexDigit(lo)];
  }

  /** The escaped body followed by the closing quote parses back to the text. */
  lemma {:induction false} ParseEscaped(x: string, rest: string)
    ensures ParseQuoted(Escape(x) + "\"" + rest) == Some((x, rest))
    decreases |x|
  {
    var s := Escape(x) + "\"" + rest;
    if |x| == 0 {
      assert s == "\"" + rest;
      assert s[1..] == rest;
    } else {
      ParseEscaped(x[1..], rest);
      var tail := Escape(x[1..]) + "\"" + rest;
      assert s == EscapeChar(x[0]) + tail;
      ParseEscapedChar(x[0], tail, x[1..], rest);
      assert [x[0]] + x[1..] == x;
    }
  }

  /** The escaped text holds no raw control character, so the serialised
      claims are valid JSON whatever the email or the role hold. */
  lemma {:induction false} EscapeNoControls(x: string)
    ensures forall i | 0 <= i < |Escape(x)| :: ' ' <= Escape(x)[i]
    decreases |x|
  {
    if |x| > 0 {
      EscapeNoControls(x[1..]);
      assert Escape(x) == EscapeChar(x[0]) + Escape(x[1..]);
    }
  }

  lemma ParseQuote(x: string, rest: string)
    ensures ParseString(Quote(x) + rest) == Some((x, rest))
  {
    var s := Quote(x) + rest;
    assert s[1..] == Escape(x) + "\"" + rest;
    ParseEscaped(x, rest);
  }

  lemma ExpectLit(lit: string, rest: string)
    ensures Expect(lit, lit + rest) == Some(rest)
  {
    assert (lit + rest)[..|lit|] == lit;
    assert (lit + rest)[|lit|..] == rest;
  }

  lemma ParseHeadJson(c: Claims, rest: string)
    ensures ParseHead(HeadJson(c) + rest) == Some((c.userId, c.email, c.role, rest))
  {
    var p1 := "{\"userId\":";
    var p2 := ",\"email\":";
    var p3 := ",\"role\":";
    var tail5 := Quote(c.role) + rest;
    var tail4 := p3 + tail5;
    var tail3 := Quote(c.email) + tail4;
    var tail2 := p2 + tail3;
    var tail1 := NatText(c.userId) + tail2;
    assert HeadJson(c) + rest == p1 + tail1;
    ExpectLit(p1, tail1);
    ParseNatText(c.userId, tail2);
    ExpectLit(p2, tail3);
    ParseQuote(c.email, tail4);
    ExpectLit(p3, tail5);
    ParseQuote(c.role, rest);
  }

  lemma ParseExpText(exp: Option<nat>)
    ensures ParseExpTail(ExpText(exp) + "}") == Some(exp)
  {
    if exp.Some? {
      var p4 := ",\"exp\":";
      var t := ExpText(exp) + "}";
      assert t == p4 + (NatText(exp.value) + "}");
      assert t[0] == ',';
      ExpectLit(p4, NatText(exp.value) + "}");
      ParseNatText(exp.value, "}");
    } else {
      assert ExpText(exp) + "}" == "}";
    }
  }

  /** Parsing the serialised claims gives back the claims. */
  lemma ParseClaimsJson(c: Claims)
    ensures ParseClaims(ClaimsJson(c)) == Some(c)
  {
    ParseHeadJson(c, ExpText(c.exp) + "}");
    ParseExpText(c.exp);
  }

  /** The serialisation is injective, as the token scheme needs. */
  lemma ClaimsJsonInjective(a: Claims, b: Claims)
    requires ClaimsJson(a) == ClaimsJson(b)
    ensures a == b
  {
    ParseClaimsJson(a);
    ParseClaimsJson(b);
  }
}
