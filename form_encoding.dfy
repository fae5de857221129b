/**
 * The application/x-www-form-urlencoded serialisation of a query, as the
 * Python 2 standard library writes it (`urllib.urlencode`, which applies
 * `urllib.quote_plus` to every name and value).
 *
 * Python 2 strings are byte strings, so the values encoded here are strings
 * whose characters all lie below 256. Letters, digits and `_ . -` are kept,
 * a space becomes `+`, and every other byte becomes `%` and two upper-case
 * hexadecimal digits.
 *
 * `FormDecode` reads such text back (strictly: it accepts only the characters
 * the encoder can write), and `QuotePlusRoundTrip` shows that decoding undoes
 * encoding.
 */
module FormEncoding {
  import opened Wrappers

  /** A character that fits in one byte. */
  predicate IsOctet(c: char) {
    c as int < 256
  }

  /** A Python 2 `str`: a string of bytes. */
  type ByteString = s: string | forall i | 0 <= i < |s| :: IsOctet(s[i])

  /** The characters `quote` never escapes. */
  predicate IsAlwaysSafe(c: char) {
    ('A' <= c <= 'Z') || ('a' <= c <= 'z') || ('0' <= c <= '9') || c == '_' || c == '.' || c == '-'
  }

  /** The characters that can occur in the output of `QuotePlus`. */
  predicate IsEncodedChar(c: char) {
    IsAlwaysSafe(c) || c == '+' || c == '%'
  }

  /** An upper-case hexadecimal digit. */
  function HexDigit(d: nat): (c: char)
    requires d < 16
    ensures '0' <= c <= '9' || 'A' <= c <= 'F'
  {
    if d < 10 then ('0' as int + d) as char else ('A' as int + d - 10) as char
  }

  /** The value of an upper-case hexadecimal digit, if `c` is one. */
  function HexValue(c: char): (r: Option<nat>)
    ensures r.Some? <==> ('0' <= c <= '9' || 'A' <= c <= 'F')
    ensures r.Some? ==> r.value < 16 && HexDigit(r.value) == c
  {
    if '0' <= c <= '9' then Some(c as int - '0' as int)
    else if 'A' <= c <= 'F' then Some(c as int - 'A' as int + 10)
    else None
  }

  /** `quote_plus` applied to one byte. */
  function QuotePlusChar(c: char): (r: string)
    requires IsOctet(c)
    ensures 1 <= |r| <= 3
    ensures forall i | 0 <= i < |r| :: IsEncodedChar(r[i])
  {
    if IsAlwaysSafe(c) then [c]
    else if c == ' ' then "+"
    else ['%', HexDigit(c as int / 16), HexDigit(c as int % 16)]
  }

  /**
   * `quote_plus(s)`: every byte escaped on its own, left to right. The result
   * uses only safe characters, `+` and `%`, so it never holds a `&`, `=`, `?`
   * or `#` that could be mistaken for query structure.
   */
  function QuotePlus(s: ByteString): (r: string)
    ensures |s| <= |r| <= 3 * |s|
    ensures forall i | 0 <= i < |r| :: IsEncodedChar(r[i])
  {
    if s == [] then "" else QuotePlusChar(s[0]) + QuotePlus(s[1..])
  }

  /**
   * Reads form-encoded text back: `+` is a space, `%XY` the byte with hex
   * value XY, a safe character itself. Anything else is rejected.
   */
  function FormDecode(s: string): (r: Option<ByteString>)
    decreases |s|
  {
    if s == [] then Some([])
    else if s[0] == '+' then Prepend(' ', FormDecode(s[1..]))
    else if IsAlwaysSafe(s[0]) then Prepend(s[0], FormDecode(s[1..]))
    else if s[0] == '%' && |s| >= 3 && HexValue(s[1]).Some? && HexValue(s[2]).Some? then
      Prepend((16 * HexValue(s[1]).value + HexValue(s[2]).value) as char, FormDecode(s[3..]))
    else None
  }

  function Prepend(c: char, r: Option<ByteString>): Option<ByteString>
    requires IsOctet(c)
  {
    match r
    case None => None
    case Some(t) => Some([c] + t)
  }

  /** Decoding the encoding of one byte followed by anything yields that byte first. */
  lemma DecodeQuotedChar(c: char, rest: string)
    requires IsOctet(c)
    ensures FormDecode(QuotePlusChar(c) + rest) == Prepend(c, FormDecode(rest))
  {
  }

  /** A space becomes `+`, an ampersand `%26`, a letter stays. */
  lemma QuotePlusExample()
    ensures QuotePlus("k y&") == "k+y%26"
  {
  }

  /** Text made only of safe characters is left as it is. */
  lemma {:induction false} QuotePlusKeepsSafeText(s: ByteString)
    requires forall i | 0 <= i < |s| :: IsAlwaysSafe(s[i])
    ensures QuotePlus(s) == s
  {
    if s != [] {
      QuotePlusKeepsSafeText(s[1..]);
      assert [s[0]] + s[1..] == s;
    }
  }

  /** `FormDecode` undoes `QuotePlus`. */
  lemma {:induction false} QuotePlusRoundTrip(s: ByteString)
    ensures FormDecode(QuotePlus(s)) == Some(s)
  {
    if s != [] {
      QuotePlusRoundTrip(s[1..]);
      DecodeQuotedChar(s[0], QuotePlus(s[1..]));
      assert [s[0]] + s[1..] == s;
    }
  }

  /** Different byte strings never encode to the same text. */
  lemma QuotePlusInjective(s: ByteString, t: ByteString)
    requires QuotePlus(s) == QuotePlus(t)
    ensures s == t
  {
    QuotePlusRoundTrip(s);
    QuotePlusRoundTrip(t);
  }

  // ---------------------------------------------------------------------------
  // A query of one parameter
  // ---------------------------------------------------------------------------

  /** `urlencode({name: value})`: the name and the value quoted, joined by `=`. */
  function UrlEncodeOne(name: ByteString, value: ByteString): (q: string)
    ensures |q| > |QuotePlus(name)| && q[|QuotePlus(name)|] == '='
    ensures forall i | 0 <= i < |q| && i != |QuotePlus(name)| :: IsEncodedChar(q[i])
    ensures forall i | 0 <= i < |q| :: q[i] != '?' && q[i] != '&' && q[i] != '#'
  {
    QuotePlus(name) + "=" + QuotePlus(value)
  }

  /** The first position of `c` in `s`, if any. */
  function IndexOf(s: string, c: char): (r: Option<nat>)
    ensures r.Some? ==> r.value < |s| && s[r.value] == c
    ensures r.Some? ==> forall j | 0 <= j < r.value :: s[j] != c
    ensures r.None? ==> forall j | 0 <= j < |s| :: s[j] != c
  {
    if s == [] then None
    else if s[0] == c then Some(0)
    else match IndexOf(s[1..], c)
      case None => None
      case Some(k) => Some(k + 1)
  }

  /** Reads a one-parameter query `name=value` back into its decoded name and value. */
  function ParseQueryOne(q: string): (r: Option<(ByteString, ByteString)>)
  {
    match IndexOf(q, '=')
    case None => None
    case Some(k) =>
      match (FormDecode(q[..k]), FormDecode(q[k + 1..]))
      case (Some(name), Some(value)) => Some((name, value))
      case _ => None
  }

  /** A one-parameter query reads back as the name and value it was built from. */
  lemma UrlEncodeOneRoundTrip(name: ByteString, value: ByteString)
    ensures ParseQueryOne(UrlEncodeOne(name, value)) == Some((name, value))
  {
    var q := UrlEncodeOne(name, value);
    var k := |QuotePlus(name)|;
    assert IndexOf(q, '=') == Some(k);
    assert q[..k] == QuotePlus(name);
    assert q[k + 1..] == QuotePlus(value);
    QuotePlusRoundTrip(name);
    QuotePlusRoundTrip(value);
  }
}
