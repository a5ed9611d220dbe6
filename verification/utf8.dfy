/** Well-formed UTF-8 as defined by the grammar of section 4 of RFC 3629,
    which is what Rust's `String::from_utf8` and `OsStr::to_str` accept, and
    the position up to which a byte sequence is valid (the `valid_up_to` of
    the error `String::from_utf8` returns). */
module Utf8 {
  import opened Common

  /** UTF8-tail = %x80-BF */
  predicate IsTail(b: byte) {
    0x80 <= b <= 0xBF
  }

  /** The number of bytes of the character a lead byte starts: 1 for
      %x00-7F, 2 for %xC2-DF, 3 for %xE0-EF, 4 for %xF0-F4, and 0 for a byte
      no well-formed character starts with. */
  function SequenceLength(lead: byte): (n: nat)
    ensures n <= 4
  {
    if lead <= 0x7F then 1
    else if 0xC2 <= lead <= 0xDF then 2
    else if 0xE0 <= lead <= 0xEF then 3
    else if 0xF0 <= lead <= 0xF4 then 4
    else 0
  }

  /** The range allowed for the second byte of a multi-byte character; the
      narrowed ranges after %xE0, %xED, %xF0 and %xF4 exclude overlong
      forms, surrogates and code points above U+10FFFF. */
  function SecondLow(lead: byte): byte {
    if lead == 0xE0 then 0xA0 else if lead == 0xF0 then 0x90 else 0x80
  }

  function SecondHigh(lead: byte): byte {
    if lead == 0xED then 0x9F else if lead == 0xF4 then 0x8F else 0xBF
  }

  /** The length of the well-formed character `s` starts with, or 0 when
      `s` is empty or does not start with a complete well-formed character. */
  function CharWidth(s: seq<byte>): (w: nat)
    ensures w <= 4 && w <= |s|
    ensures w > 0 ==> w == SequenceLength(s[0])
  {
    if |s| == 0 then 0
    else
      var n := SequenceLength(s[0]);
      if n == 0 || |s| < n then 0
      else if n == 1 then 1
      else if SecondLow(s[0]) <= s[1] <= SecondHigh(s[0])
              && (n < 3 || IsTail(s[2])) && (n < 4 || IsTail(s[3]))
      then n
      else 0
  }

  /** UTF8-octets = *( UTF8-char ) */
  predicate WellFormed(s: seq<byte>)
    decreases |s|
  {
    |s| == 0 || (CharWidth(s) > 0 && WellFormed(s[CharWidth(s)..]))
  }

  /** Rust's `str`/`String`: bytes that are well-formed UTF-8. */
  type Str = s: seq<byte> | WellFormed(s)

  /** The number of leading bytes that decode as whole characters. */
  function ValidUpTo(s: seq<byte>): (n: nat)
    ensures n <= |s|
    decreases |s|
  {
    if CharWidth(s) == 0 then 0
    else CharWidth(s) + ValidUpTo(s[CharWidth(s)..])
  }

  /** The width of the first character depends only on its own bytes. */
  lemma CharWidthOfExtension(t: seq<byte>, u: seq<byte>)
    requires CharWidth(t) > 0
    requires CharWidth(t) <= |u| && u[..CharWidth(t)] == t[..CharWidth(t)]
    ensures CharWidth(u) == CharWidth(t)
  {
    var w := CharWidth(t);
    assert u[0] == u[..w][0] == t[..w][0] == t[0];
    if w >= 2 { assert u[1] == u[..w][1] == t[..w][1] == t[1]; }
    if w >= 3 { assert u[2] == u[..w][2] == t[..w][2] == t[2]; }
    if w >= 4 { assert u[3] == u[..w][3] == t[..w][3] == t[3]; }
  }

  /** The prefix `ValidUpTo` reports is well-formed. */
  lemma {:induction false} ValidUpToIsValid(s: seq<byte>)
    ensures WellFormed(s[..ValidUpTo(s)])
    decreases |s|
  {
    var w := CharWidth(s);
    if w > 0 {
      var rest := s[w..];
      var n := ValidUpTo(rest);
      ValidUpToIsValid(rest);
      var p := s[..w + n];
      CharWidthOfExtension(s, p);
      assert p[w..] == rest[..n];
    }
  }

  /** No prefix longer than the one `ValidUpTo` reports is well-formed. */
  lemma {:induction false} ValidUpToIsLongest(s: seq<byte>, k: nat)
    requires ValidUpTo(s) < k <= |s|
    ensures !WellFormed(s[..k])
    decreases |s|
  {
    var p := s[..k];
    var w := CharWidth(s);
    if w == 0 {
      if CharWidth(p) > 0 {
        CharWidthOfExtension(p, s);
      }
    } else {
      CharWidthOfExtension(s, p);
      ValidUpToIsLongest(s[w..], k - w);
      assert p[w..] == s[w..][..k - w];
    }
  }

  /** A sequence is well-formed exactly when all of it is valid. */
  lemma {:induction false} WellFormedIffValidUpToLength(s: seq<byte>)
    ensures WellFormed(s) <==> ValidUpTo(s) == |s|
  {
    ValidUpToIsValid(s);
    assert s[..|s|] == s;
    if ValidUpTo(s) < |s| {
      ValidUpToIsLongest(s, |s|);
    }
  }
}
