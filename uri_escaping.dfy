/** `Uri.EscapeDataString`: percent-encoding of every character outside the
    RFC 3986 unreserved set, over the UTF-8 bytes of the character. */
module UriEscaping {
  import opened Strings

  /** The RFC 3986 unreserved characters, which are copied unchanged. */
  predicate IsUnreserved(c: char) {
    'A' <= c <= 'Z' || 'a' <= c <= 'z' || '0' <= c <= '9'
    || c == '-' || c == '.' || c == '_' || c == '~'
  }

  /** The UTF-8 encoding of one Unicode scalar value. */
  function Utf8(c: char): (r: seq<nat>)
    ensures 1 <= |r| <= 4
    ensures forall i :: 0 <= i < |r| ==> r[i] < 256
  {
    var n := c as int;
    if n < 0x80 then [n]
    else if n < 0x800 then [0xC0 + n / 64, 0x80 + n % 64]
    else if n < 0x10000 then [0xE0 + n / 4096, 0x80 + (n / 64) % 64, 0x80 + n % 64]
    else [0xF0 + n / 262144, 0x80 + (n / 4096) % 64, 0x80 + (n / 64) % 64, 0x80 + n % 64]
  }

  /** Upper-case hexadecimal digit, as `EscapeDataString` writes it. */
  function HexDigit(d: nat): (r: char)
    requires d < 16
    ensures IsUnreserved(r)
  {
    if d < 10 then ('0' as int + d) as char else ('A' as int + d - 10) as char
  }

  /** `%XX` for each byte. */
  function PercentEncode(bytes: seq<nat>): (r: string)
    requires forall i :: 0 <= i < |bytes| ==> bytes[i] < 256
    ensures |r| == 3 * |bytes|
    ensures forall i :: 0 <= i < |r| ==> r[i] == '%' || IsUnreserved(r[i])
  {
    if bytes == [] then ""
    else ['%', HexDigit(bytes[0] / 16), HexDigit(bytes[0] % 16)] + PercentEncode(bytes[1..])
  }

  function EscapeChar(c: char): (r: string)
    ensures forall i :: 0 <= i < |r| ==> r[i] == '%' || IsUnreserved(r[i])
  {
    if IsUnreserved(c) then [c] else PercentEncode(Utf8(c))
  }

  /** `Uri.EscapeDataString(s)`. Its result holds only unreserved characters and
      `%`, so none of the URI delimiters `/ ? : & =` can appear in it. */
  function EscapeDataString(s: string): (r: string)
    ensures forall i :: 0 <= i < |r| ==> r[i] == '%' || IsUnreserved(r[i])
    ensures '&' !in r && '=' !in r && '?' !in r && ':' !in r && '/' !in r
  {
    if s == [] then "" else EscapeChar(s[0]) + EscapeDataString(s[1..])
  }

  /** A string of unreserved characters is left as it is. */
  lemma {:induction false} EscapeUnreservedIsIdentity(s: string)
    requires forall i :: 0 <= i < |s| ==> IsUnreserved(s[i])
    ensures EscapeDataString(s) == s
  {
    if s != [] {
      EscapeUnreservedIsIdentity(s[1..]);
    }
  }
}
