/** Composite identifiers (internal/identifier/identifier.go): parts escaped as URL path segments and
    joined by slashes. A string is a sequence of bytes. */
module Identifiers {

  predicate IsBytes(s: string) { forall i :: 0 <= i < |s| ==> s[i] as int < 256 }

  predicate AllBytes(parts: seq<string>) { forall i :: 0 <= i < |parts| ==> IsBytes(parts[i]) }

  /** The bytes a path segment keeps as they are. */
  predicate Plain(c: char) {
    'a' <= c <= 'z' || 'A' <= c <= 'Z' || '0' <= c <= '9' || c in {'-', '_', '.', '~', '$', '&', '+', ':', '=', '@'}
  }

  function HexDigit(n: nat): char
    requires n < 16
  {
    if n < 10 then ('0' as int + n) as char else ('A' as int + n - 10) as char
  }

  function HexValue(c: char): nat {
    if '0' <= c <= '9' then c as int - '0' as int else if 'A' <= c <= 'F' then c as int - 'A' as int + 10 else 0
  }

  function EscapeByte(c: char): string
    requires c as int < 256
  {
    if Plain(c) then [c] else ['%', HexDigit(c as int / 16), HexDigit(c as int % 16)]
  }

  function Escape(s: string): string
    requires IsBytes(s)
  {
    if s == [] then [] else EscapeByte(s[0]) + Escape(s[1..])
  }

  function Encode(parts: seq<string>): string
    requires parts != [] && AllBytes(parts)
  {
    if |parts| == 1 then Escape(parts[0]) else Escape(parts[0]) + "/" + Encode(parts[1..])
  }

  // ---------------------------------------------------------------- reading back

  function Unescape(t: string): string {
    if t == [] then []
    else if t[0] == '%' && |t| >= 3 then [(HexValue(t[1]) * 16 + HexValue(t[2])) as char] + Unescape(t[3..])
    else [t[0]] + Unescape(t[1..])
  }

  /** The position of the first slash, or the length. */
  function FirstSlash(t: string): (n: nat)
    ensures n <= |t| && (n < |t| ==> t[n] == '/') && forall i :: 0 <= i < n ==> t[i] != '/'
  {
    if t == [] || t[0] == '/' then 0 else 1 + FirstSlash(t[1..])
  }

  function Decode(t: string): seq<string>
    decreases |t|
  {
    var n := FirstSlash(t);
    if n == |t| then [Unescape(t)] else [Unescape(t[..n])] + Decode(t[n + 1..])
  }

  lemma HexRoundTrip(n: nat)
    requires n < 16
    ensures HexValue(HexDigit(n)) == n
  {
  }

  lemma {:induction false} UnescapeEscape(s: string)
    requires IsBytes(s)
    ensures Unescape(Escape(s)) == s
  {
    if s != [] {
      UnescapeEscape(s[1..]);
      var c, rest := s[0], Escape(s[1..]);
      HexRoundTrip(c as int / 16);
      HexRoundTrip(c as int % 16);
      if Plain(c) {
        assert ([c] + rest)[1..] == rest;
      } else {
        var e := EscapeByte(c);
        assert (e + rest)[3..] == rest;
        assert e[0] == '%' && (HexValue(e[1]) * 16 + HexValue(e[2])) as char == c;
      }
      assert s == [c] + s[1..];
    }
  }

  lemma {:induction false} EscapeHasNoSlash(s: string, i: nat)
    requires IsBytes(s) && i < |Escape(s)|
    ensures Escape(s)[i] != '/'
  {
    var e := EscapeByte(s[0]);
    if i >= |e| { EscapeHasNoSlash(s[1..], i - |e|); }
  }

  /** Decoding an encoded identifier gives back its parts. */
  lemma {:induction false} DecodeEncode(parts: seq<string>)
    requires parts != [] && AllBytes(parts)
    ensures Decode(Encode(parts)) == parts
  {
    var head := Escape(parts[0]);
    forall i | 0 <= i < |head| ensures head[i] != '/' { EscapeHasNoSlash(parts[0], i); }
    UnescapeEscape(parts[0]);
    var t := Encode(parts);
    var n := FirstSlash(t);
    if |parts| > 1 {
      DecodeEncode(parts[1..]);
      assert t[|head|] == '/';
      assert forall i :: 0 <= i < |head| ==> t[i] == head[i];
      assert n == |head|;
      assert t[..n] == head && t[n + 1..] == Encode(parts[1..]);
      assert parts == [parts[0]] + parts[1..];
    }
  }

  /** So different part lists, of any lengths, never collide. */
  lemma EncodeIsInjective(left: seq<string>, right: seq<string>)
    requires left != [] && right != [] && AllBytes(left) && AllBytes(right)
    ensures Encode(left) == Encode(right) ==> left == right
  {
    DecodeEncode(left);
    DecodeEncode(right);
  }
}
