/**
 * The browser's `btoa` and `atob`: Base64 with the alphabet and `=` padding of
 * section 4 of RFC 4648. `btoa` encodes a string whose code units are all at
 * most 0xFF (one byte each) and fails otherwise; `atob` is the
 * "forgiving-base64 decode" of the WHATWG Infra standard: ASCII whitespace is
 * ignored, padding is optional, and malformed input fails.
 */
module Base64 {
  import opened Wrappers
  import opened Text
  type Sextet = x: int | 0 <= x < 64

  // ---- Latin-1 strings and bytes ------------------------------------------

  /** Every code unit fits in one byte, as `btoa` requires. */
  predicate IsLatin1(s: string)
  {
    forall i :: 0 <= i < |s| ==> s[i] as int < 256
  }

  function CodeUnits(s: string): (b: seq<Byte>)
    requires IsLatin1(s)
    ensures |b| == |s| && forall i :: 0 <= i < |s| ==> b[i] == s[i] as int
  {
    seq(|s|, i requires 0 <= i < |s| => s[i] as int)
  }

  function FromCodeUnits(b: seq<Byte>): (s: string)
    ensures |s| == |b| && IsLatin1(s)
    ensures forall i :: 0 <= i < |b| ==> s[i] as int == b[i]
  {
    seq(|b|, i requires 0 <= i < |b| => b[i] as char)
  }

  lemma CodeUnitsRoundTrip(s: string)
    requires IsLatin1(s)
    ensures FromCodeUnits(CodeUnits(s)) == s
  {
  }

  // ---- The alphabet --------------------------------------------------------

  /** `A`-`Z`, `a`-`z`, `0`-`9`, `+`, `/` stand for 0 to 63. */
  function SextetChar(v: Sextet): (c: char)
  {
    if v < 26 then ('A' as int + v) as char
    else if v < 52 then ('a' as int + (v - 26)) as char
    else if v < 62 then ('0' as int + (v - 52)) as char
    else if v == 62 then '+'
    else '/'
  }

  predicate IsAlphabetChar(c: char)
  {
    ('A' <= c <= 'Z') || ('a' <= c <= 'z') || ('0' <= c <= '9') || c == '+' || c == '/'
  }

  function CharSextet(c: char): (v: Sextet)
    requires IsAlphabetChar(c)
    ensures SextetChar(v) == c
  {
    if 'A' <= c <= 'Z' then c as int - 'A' as int
    else if 'a' <= c <= 'z' then c as int - 'a' as int + 26
    else if '0' <= c <= '9' then c as int - '0' as int + 52
    else if c == '+' then 62
    else 63
  }

  lemma SextetCharInAlphabet(v: Sextet)
    ensures IsAlphabetChar(SextetChar(v)) && CharSextet(SextetChar(v)) == v
  {
  }

  // ---- Encoding --------------------------------------------------------------

  /** The Base64 digits of a byte string, before padding: four per three bytes,
      and two or three for a final group of one or two bytes. */
  function Sextets(b: seq<Byte>): (v: seq<Sextet>)
    ensures |v| % 4 != 1
    ensures |v| % 4 == 0 <==> |b| % 3 == 0
    ensures |v| % 4 == 2 <==> |b| % 3 == 1
    decreases |b|
  {
    if |b| == 0 then []
    else if |b| == 1 then [b[0] / 4, (b[0] % 4) * 16]
    else if |b| == 2 then [b[0] / 4, (b[0] % 4) * 16 + b[1] / 16, (b[1] % 16) * 4]
    else [b[0] / 4, (b[0] % 4) * 16 + b[1] / 16, (b[1] % 16) * 4 + b[2] / 64, b[2] % 64]
         + Sextets(b[3..])
  }

  function SextetsToChars(v: seq<Sextet>): (s: string)
    ensures |s| == |v| && forall i :: 0 <= i < |v| ==> s[i] == SextetChar(v[i])
  {
    seq(|v|, i requires 0 <= i < |v| => SextetChar(v[i]))
  }

  /** RFC 4648 padding: `=` up to a multiple of four characters. */
  function Padding(b: seq<Byte>): string
  {
    if |b| % 3 == 1 then "==" else if |b| % 3 == 2 then "=" else ""
  }

  function Encode(b: seq<Byte>): (s: string)
    ensures |s| % 4 == 0
  {
    SextetsToChars(Sextets(b)) + Padding(b)
  }

  /** `btoa(s)`: `None` is the `InvalidCharacterError` it throws. */
  function Btoa(s: string): (r: Option<string>)
    ensures r.Some? <==> IsLatin1(s)
  {
    if IsLatin1(s) then Some(Encode(CodeUnits(s))) else None
  }

  // ---- Forgiving decoding ---------------------------------------------------

  /** The ASCII whitespace the decoder skips: tab, line feed, form feed,
      carriage return and space. */
  predicate IsAsciiWhitespace(c: char)
  {
    c == '\t' || c == '\n' || c == '\U{C}' || c == '\r' || c == ' '
  }

  function RemoveWhitespace(s: string): (r: string)
    ensures forall c :: c in r <==> c in s && !IsAsciiWhitespace(c)
    decreases |s|
  {
    if s == [] then []
    else if IsAsciiWhitespace(s[0]) then RemoveWhitespace(s[1..])
    else [s[0]] + RemoveWhitespace(s[1..])
  }

  /** When the length is a multiple of four, one or two trailing `=` are dropped. */
  function StripPadding(s: string): (r: string)
    ensures |r| <= |s| && r == s[..|r|] && |s| - |r| <= 2
    ensures forall i :: |r| <= i < |s| ==> s[i] == '='
  {
    if |s| % 4 == 0 && |s| >= 2 && s[|s| - 2] == '=' && s[|s| - 1] == '=' then s[..|s| - 2]
    else if |s| % 4 == 0 && |s| >= 1 && s[|s| - 1] == '=' then s[..|s| - 1]
    else s
  }

  predicate AllAlphabet(s: string)
  {
    forall i :: 0 <= i < |s| ==> IsAlphabetChar(s[i])
  }

  function CharsToSextets(s: string): (v: seq<Sextet>)
    requires AllAlphabet(s)
    ensures |v| == |s| && forall i :: 0 <= i < |s| ==> v[i] == CharSextet(s[i])
  {
    seq(|s|, i requires 0 <= i < |s| => CharSextet(s[i]))
  }

  /** Bytes of a padding-free digit string; leftover low bits of a final
      partial group are discarded, as the forgiving decoder does. */
  function DecodeSextets(v: seq<Sextet>): (b: seq<Byte>)
    requires |v| % 4 != 1
    decreases |v|
  {
    if |v| == 0 then []
    else
      var b0: int := v[0] as int * 4 + v[1] as int / 16;
      if |v| == 2 then [b0]
      else
        var b1: int := (v[1] as int % 16) * 16 + v[2] as int / 4;
        if |v| == 3 then [b0, b1]
        else [b0, b1, (v[2] as int % 4) * 64 + v[3] as int] + DecodeSextets(v[4..])
  }

  /** Forgiving-base64 decode: `None` is failure. */
  function Decode(s: string): Option<seq<Byte>>
  {
    var d := StripPadding(RemoveWhitespace(s));
    if |d| % 4 == 1 || !AllAlphabet(d) then None
    else Some(DecodeSextets(CharsToSextets(d)))
  }

  /** `atob(s)`: `None` is the `InvalidCharacterError` it throws. */
  function Atob(s: string): (r: Option<string>)
    ensures r.Some? ==> IsLatin1(r.value)
  {
    match Decode(s)
    case None => None
    case Some(b) => Some(FromCodeUnits(b))
  }

  // ---- Properties ------------------------------------------------------------

  /** One group of three bytes survives encoding and decoding. */
  lemma GroupRoundTrip(b0: Byte, b1: Byte, b2: Byte)
    ensures b0 / 4 * 4 + ((b0 % 4) * 16 + b1 / 16) / 16 == b0
    ensures (((b0 % 4) * 16 + b1 / 16) % 16) * 16 + ((b1 % 16) * 4 + b2 / 64) / 4 == b1
    ensures (((b1 % 16) * 4 + b2 / 64) % 4) * 64 + b2 % 64 == b2
  {
  }

  lemma {:induction false} SextetsRoundTrip(b: seq<Byte>)
    ensures DecodeSextets(Sextets(b)) == b
    decreases |b|
  {
    if |b| >= 3 {
      SextetsRoundTrip(b[3..]);
      GroupRoundTrip(b[0], b[1], b[2]);
      var v := Sextets(b);
      assert v[4..] == Sextets(b[3..]);
      assert b == b[..3] + b[3..];
    } else if |b| > 0 {
      GroupRoundTrip(b[0], if |b| == 2 then b[1] else 0, 0);
    }
  }

  lemma AlphabetDigits(v: seq<Sextet>)
    ensures AllAlphabet(SextetsToChars(v))
    ensures CharsToSextets(SextetsToChars(v)) == v
  {
    var s := SextetsToChars(v);
    forall i | 0 <= i < |v| ensures IsAlphabetChar(s[i]) && CharSextet(s[i]) == v[i] {
      SextetCharInAlphabet(v[i]);
    }
  }

  /** Ignoring whitespace and padding leaves exactly the digits of an encoding. */
  lemma {:induction false} StripEncoding(b: seq<Byte>)
    ensures StripPadding(RemoveWhitespace(Encode(b))) == SextetsToChars(Sextets(b))
  {
    EncodingHasNoWhitespace(b);
    PaddingStrips(b);
  }

  lemma EncodingHasNoWhitespace(b: seq<Byte>)
    ensures RemoveWhitespace(Encode(b)) == Encode(b)
  {
    var core := SextetsToChars(Sextets(b));
    var s := Encode(b);
    AlphabetDigits(Sextets(b));
    assert s == core + Padding(b);
    forall c | c in s ensures !IsAsciiWhitespace(c) {
      var i :| 0 <= i < |s| && s[i] == c;
      if i < |core| { assert IsAlphabetChar(core[i]); }
    }
    NoWhitespaceUnchanged(s);
  }

  lemma PaddingStrips(b: seq<Byte>)
    ensures StripPadding(Encode(b)) == SextetsToChars(Sextets(b))
  {
    var core := SextetsToChars(Sextets(b));
    assert Encode(b) == core + Padding(b);
    if core != [] {
      AlphabetDigits(Sextets(b));
      assert IsAlphabetChar(core[|core| - 1]);
    }
  }

  /** Decoding the encoding of any byte string gives it back. */
  lemma {:induction false} DecodeEncode(b: seq<Byte>)
    ensures Decode(Encode(b)) == Some(b)
  {
    StripEncoding(b);
    AlphabetDigits(Sextets(b));
    SextetsRoundTrip(b);
  }

  lemma {:induction false} NoWhitespaceUnchanged(s: string)
    requires forall c :: c in s ==> !IsAsciiWhitespace(c)
    ensures RemoveWhitespace(s) == s
    decreases |s|
  {
    if s != [] {
      assert forall c :: c in s[1..] ==> c in s;
      NoWhitespaceUnchanged(s[1..]);
      assert s == [s[0]] + s[1..];
    }
  }

  /** `atob(btoa(s))` is `s` for every Latin-1 string. */
  lemma AtobBtoa(s: string)
    requires IsLatin1(s)
    ensures Atob(Btoa(s).value) == Some(s)
  {
    DecodeEncode(CodeUnits(s));
    CodeUnitsRoundTrip(s);
  }

  /** A character that is neither in the alphabet, nor `=`, nor ASCII
      whitespace makes `atob` fail wherever it stands. */
  lemma AtobRejectsForeignChar(s: string, i: nat)
    requires i < |s|
    requires !IsAlphabetChar(s[i]) && s[i] != '=' && !IsAsciiWhitespace(s[i])
    ensures Atob(s) == None
  {
    var w := RemoveWhitespace(s);
    var d := StripPadding(w);
    assert s[i] in w;
    var k :| 0 <= k < |w| && w[k] == s[i];
    assert k < |d|;
    assert !IsAlphabetChar(d[k]);
  }

  /** After whitespace and padding are set aside, a length of one more than a
      multiple of four makes `atob` fail. */
  lemma AtobRejectsDanglingDigit(s: string)
    requires |StripPadding(RemoveWhitespace(s))| % 4 == 1
    ensures Atob(s) == None
  {
  }
}
