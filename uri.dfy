/** `encodeURIComponent`: every character outside the unreserved set is
    replaced by the percent-escaped bytes of its UTF-8 encoding. */
module Uri {

  /** Characters `encodeURIComponent` leaves as they are. */
  predicate Unreserved(c: char)
  {
    ('A' <= c <= 'Z') || ('a' <= c <= 'z') || ('0' <= c <= '9')
    || c == '-' || c == '_' || c == '.' || c == '!' || c == '~' || c == '*'
    || c == '\'' || c == '(' || c == ')'
  }

  predicate IsUpperHex(c: char)
  {
    ('0' <= c <= '9') || ('A' <= c <= 'F')
  }

  /** A string made only of unreserved characters and `%XX` escapes with
      upper-case hexadecimal digits. */
  predicate WellEscaped(s: string)
    decreases |s|
  {
    if s == [] then true
    else if s[0] == '%' then |s| >= 3 && IsUpperHex(s[1]) && IsUpperHex(s[2]) && WellEscaped(s[3..])
    else Unreserved(s[0]) && WellEscaped(s[1..])
  }

  function HexDigit(n: nat): (c: char)
    requires n < 16
    ensures IsUpperHex(c)
  {
    if n < 10 then (48 + n) as char else (55 + n) as char
  }

  /** `%XX` for one byte. */
  function Escape(b: nat): (r: string)
    requires b < 256
    ensures WellEscaped(r)
  {
    var r := ['%', HexDigit(b / 16), HexDigit(b % 16)];
    assert r[3..] == [];
    r
  }

  /** The UTF-8 encoding of one Unicode scalar value. */
  function Utf8(c: char): (bytes: seq<nat>)
    ensures 1 <= |bytes| <= 4
    ensures forall i :: 0 <= i < |bytes| ==> bytes[i] < 256
    ensures c as int < 0x80 ==> bytes == [c as int]
  {
    var n := c as int;
    if n < 0x80 then [n]
    else if n < 0x800 then [0xC0 + n / 64, 0x80 + n % 64]
    else if n < 0x10000 then [0xE0 + n / 4096, 0x80 + (n / 64) % 64, 0x80 + n % 64]
    else [0xF0 + n / 262144, 0x80 + (n / 4096) % 64, 0x80 + (n / 64) % 64, 0x80 + n % 64]
  }

  function EscapeAll(bytes: seq<nat>): (r: string)
    requires forall i :: 0 <= i < |bytes| ==> bytes[i] < 256
    ensures WellEscaped(r)
    ensures |r| == 3 * |bytes|
  {
    if bytes == [] then []
    else
      var head := Escape(bytes[0]);
      var tail := EscapeAll(bytes[1..]);
      WellEscapedAppend(head, tail);
      head + tail
  }

  lemma {:induction false} WellEscapedAppend(a: string, b: string)
    requires WellEscaped(a) && WellEscaped(b)
    ensures WellEscaped(a + b)
    decreases |a|
  {
    if a == [] {
      assert a + b == b;
    } else if a[0] == '%' {
      var ab := a + b;
      WellEscapedAppend(a[3..], b);
      assert ab[0] == '%' && ab[1] == a[1] && ab[2] == a[2];
      assert ab[3..] == a[3..] + b;
    } else {
      var ab := a + b;
      WellEscapedAppend(a[1..], b);
      assert ab[0] == a[0];
      assert ab[1..] == a[1..] + b;
    }
  }

  function EncodeChar(c: char): (r: string)
    ensures WellEscaped(r)
    ensures Unreserved(c) ==> r == [c]
    ensures !Unreserved(c) ==> r != [] && r[0] == '%'
  {
    if Unreserved(c) then
      assert [c][1..] == [];
      [c]
    else
      EscapeAll(Utf8(c))
  }

  /** `encodeURIComponent(s)` */
  function EncodeUriComponent(s: string): (r: string)
    ensures WellEscaped(r)
    ensures |s| <= |r|
  {
    if s == [] then []
    else
      var head := EncodeChar(s[0]);
      var tail := EncodeUriComponent(s[1..]);
      WellEscapedAppend(head, tail);
      head + tail
  }

  /** A string of unreserved characters is its own encoding. */
  lemma {:induction false} EncodeUnreservedIsIdentity(s: string)
    requires forall i :: 0 <= i < |s| ==> Unreserved(s[i])
    ensures EncodeUriComponent(s) == s
  {
    if s != [] {
      EncodeUnreservedIsIdentity(s[1..]);
    }
  }

  /** Every character of a well-escaped string is unreserved, `%` or a hex digit. */
  lemma {:induction false} WellEscapedChars(r: string, i: nat)
    requires WellEscaped(r) && i < |r|
    ensures Unreserved(r[i]) || r[i] == '%' || IsUpperHex(r[i])
    decreases |r|
  {
    if r[0] == '%' {
      if i >= 3 {
        WellEscapedChars(r[3..], i - 3);
      }
    } else if i > 0 {
      WellEscapedChars(r[1..], i - 1);
    }
  }
}
