/**
 * `URLSearchParams.prototype.toString`: the application/x-www-form-urlencoded
 * serializer of the WHATWG URL standard. Names and values are UTF-8 encoded;
 * ASCII letters, digits and `*-._` stay as they are, a space becomes `+`, and
 * every other byte becomes `%XX` with upper-case hexadecimal digits.
 */
module FormEncoding {
  import opened Text

  /** UTF-8 encoding of one Unicode scalar value. */
  function Utf8(c: char): (b: seq<Byte>)
    ensures 1 <= |b| <= 4
    ensures (|b| == 1) <==> (c as int < 0x80)
  {
    var n := c as int;
    if n < 0x80 then [n]
    else if n < 0x800 then [0xC0 + n / 64, 0x80 + n % 64]
    else if n < 0x10000 then [0xE0 + n / 4096, 0x80 + (n / 64) % 64, 0x80 + n % 64]
    else [0xF0 + n / 262144, 0x80 + (n / 4096) % 64, 0x80 + (n / 64) % 64, 0x80 + n % 64]
  }

  predicate IsUnreservedByte(b: Byte)
  {
    b == 0x2A || b == 0x2D || b == 0x2E || b == 0x5F
    || (0x30 <= b <= 0x39) || (0x41 <= b <= 0x5A) || (0x61 <= b <= 0x7A)
  }

  function HexDigit(n: int): char
    requires 0 <= n < 16
  {
    if n < 10 then ('0' as int + n) as char else ('A' as int + (n - 10)) as char
  }

  function EncodeByte(b: Byte): (s: string)
    ensures |s| == 1 || |s| == 3
  {
    if b == 0x20 then "+"
    else if IsUnreservedByte(b) then [b as char]
    else ['%', HexDigit(b / 16), HexDigit(b % 16)]
  }

  function EncodeBytes(b: seq<Byte>): string
  {
    if b == [] then "" else EncodeByte(b[0]) + EncodeBytes(b[1..])
  }

  /** The bytes of one character, each serialized. */
  function EncodeChar(c: char): string
  {
    EncodeBytes(Utf8(c))
  }

  function Concat(parts: seq<string>): string
  {
    if parts == [] then "" else parts[0] + Concat(parts[1..])
  }

  /** A name or a value, serialized character by character. */
  function Encode(s: string): string
  {
    Concat(seq(|s|, i requires 0 <= i < |s| => EncodeChar(s[i])))
  }

  lemma {:induction false} ConcatSingletons(parts: seq<string>, s: string)
    requires |parts| == |s| && forall i :: 0 <= i < |s| ==> parts[i] == [s[i]]
    ensures Concat(parts) == s
  {
    if s != [] {
      ConcatSingletons(parts[1..], s[1..]);
      assert s == [s[0]] + s[1..];
    }
  }

  /** Text made only of ASCII letters, digits and `*-._` is serialized verbatim. */
  lemma PlainTextVerbatim(s: string)
    requires forall i :: 0 <= i < |s| ==> s[i] as int < 0x80 && IsUnreservedByte(s[i] as int)
    ensures Encode(s) == s
  {
    var parts := seq(|s|, i requires 0 <= i < |s| => EncodeChar(s[i]));
    forall i | 0 <= i < |s| ensures parts[i] == [s[i]] {
      assert Utf8(s[i]) == [s[i] as int];
      assert EncodeBytes([s[i] as int]) == [s[i]];
    }
    ConcatSingletons(parts, s);
  }

  /** The serialization of a parameter list: `name=value` pairs joined by `&`. */
  function Serialize(params: seq<(string, string)>): (r: string)
    ensures r == "" <==> params == []
  {
    if params == [] then ""
    else
      var pair := Encode(params[0].0) + "=" + Encode(params[0].1);
      if |params| == 1 then pair else pair + "&" + Serialize(params[1..])
  }
}
