/**
 Scalar validation and canonicalisation of JSON string escapes, byte by byte. Canonicalisation
 replaces the escapes of `<`, `>`, `&`, U+2028 and U+2029, which Go's encoder writes, by the
 characters themselves, and leaves every other byte alone.
 */
module Canonical {
  import opened Basics
  import opened Utf8

  const QUOTE: byte := 0x22
  const BACKSLASH: byte := 0x5C
  const LETTER_U: byte := 0x75

  // ---- four hexadecimal digits ----

  function Digit(b: byte): Option<nat> {
    if 0x30 <= b <= 0x39 then Some(b - 0x30)
    else if 0x61 <= b <= 0x66 then Some(b - 0x61 + 10)
    else if 0x41 <= b <= 0x46 then Some(b - 0x41 + 10)
    else None
  }

  function Hex4(s: seq<byte>): Option<nat> {
    if |s| >= 4 && Digit(s[0]).Some? && Digit(s[1]).Some? && Digit(s[2]).Some? && Digit(s[3]).Some?
    then Some(Digit(s[0]).value * 4096 + Digit(s[1]).value * 256 + Digit(s[2]).value * 16 + Digit(s[3]).value)
    else None
  }

  lemma Hex4Fits(s: seq<byte>)
    requires Hex4(s).Some?
    ensures Hex4(s).value < 0x10000
  {
  }

  predicate High(code: nat) {
    0xD800 <= code <= 0xDBFF
  }

  predicate Low(code: nat) {
    0xDC00 <= code <= 0xDFFF
  }

  // ---- validation ----

  /** `s` starts with a unicode escape, of this code. */
  predicate EscapeAt(s: seq<byte>) {
    |s| >= 6 && s[0] == BACKSLASH && s[1] == LETTER_U && Hex4(s[2..]).Some?
  }

  function Code(s: seq<byte>): nat
    requires EscapeAt(s)
  {
    Hex4(s[2..]).value
  }

  /** The first `n` bytes of `s` are an escape that stands for a character: one code, or a surrogate pair. */
  function EscapeSize(s: seq<byte>): Option<nat> {
    if !EscapeAt(s) then None
    else if High(Code(s)) then
      if EscapeAt(s[6..]) && Low(Code(s[6..])) then Some(12) else None
    else if Low(Code(s)) then None
    else Some(6)
  }

  /** The scanner, which steps over a character of a string as a whole. */
  predicate ScansRunes(s: seq<byte>, inString: bool)
    decreases |s|
  {
    if s == [] then !inString
    else if !inString then ScansRunes(s[1..], s[0] == QUOTE)
    else if s[0] == QUOTE then ScansRunes(s[1..], false)
    else if s[0] != BACKSLASH then
      LongRunesAreHigh(s);
      s[0] >= 0x20 && ScansRunes(s[RuneSize(s)..], true)
    else if |s| < 2 then false
    else if s[1] != LETTER_U then ScansRunes(s[2..], true)
    else
      var n := EscapeSize(s);
      n.Some? && ScansRunes(s[n.value..], true)
  }

  predicate Accepts(s: seq<byte>) {
    Valid(s) && ScansRunes(s, false)
  }

  /** The same scanner, one byte at a time. */
  predicate Scans(s: seq<byte>, inString: bool)
    decreases |s|
  {
    if s == [] then !inString
    else if !inString then Scans(s[1..], s[0] == QUOTE)
    else if s[0] == QUOTE then Scans(s[1..], false)
    else if s[0] != BACKSLASH then s[0] >= 0x20 && Scans(s[1..], true)
    else if |s| < 2 then false
    else if s[1] != LETTER_U then Scans(s[2..], true)
    else
      var n := EscapeSize(s);
      n.Some? && Scans(s[n.value..], true)
  }

  lemma {:induction false} HighBytesAreSkipped(s: seq<byte>, n: nat)
    requires n <= |s| && forall k | 0 <= k < n :: s[k] >= 0x80
    ensures Scans(s, true) == Scans(s[n..], true)
  {
    if n > 0 {
      HighBytesAreSkipped(s[1..], n - 1);
      assert s[1..][n - 1..] == s[n..];
    }
  }

  /** Stepping over whole characters or over single bytes accepts the same texts. */
  lemma {:induction false} RunesOrBytes(s: seq<byte>, inString: bool)
    ensures ScansRunes(s, inString) == Scans(s, inString)
    decreases |s|
  {
    if s != [] {
      if !inString || s[0] == QUOTE {
        RunesOrBytes(s[1..], !inString && s[0] == QUOTE);
      } else if s[0] != BACKSLASH {
        LongRunesAreHigh(s);
        RunesOrBytes(s[RuneSize(s)..], true);
        if RuneSize(s) > 1 {
          HighBytesAreSkipped(s, RuneSize(s));
        }
      } else if |s| >= 2 {
        if s[1] != LETTER_U {
          RunesOrBytes(s[2..], true);
        } else if EscapeSize(s).Some? {
          RunesOrBytes(s[EscapeSize(s).value..], true);
        }
      }
    }
  }

  // ---- canonicalisation ----

  /** Go's encoder escapes these characters; the canonical form does not. */
  predicate Plain(code: nat) {
    code == 0x3C || code == 0x3E || code == 0x26 || code == 0x2028 || code == 0x2029
  }

  function Before(piece: seq<byte>, rest: Option<seq<byte>>): Option<seq<byte>> {
    if rest.Some? then Some(piece + rest.value) else None
  }

  /** What a unicode escape becomes. */
  function Rewritten(s: seq<byte>): seq<byte>
    requires EscapeAt(s)
  {
    if Plain(Code(s)) then Encode(Code(s)) else s[..6]
  }

  function Canon(s: seq<byte>, inString: bool): Option<seq<byte>>
    decreases |s|
  {
    if s == [] then if inString then None else Some([])
    else if !inString then Before(s[..1], Canon(s[1..], s[0] == QUOTE))
    else if s[0] == QUOTE then Before(s[..1], Canon(s[1..], false))
    else if s[0] != BACKSLASH then Before(s[..1], Canon(s[1..], true))
    else if |s| < 2 then None
    else if s[1] != LETTER_U then Before(s[..2], Canon(s[2..], true))
    else if Hex4(s[2..]).None? then None
    else Before(Rewritten(s), Canon(s[6..], true))
  }

  // ---- meaning ----

  /** A byte outside strings, a byte of a string's contents, or an escape that JSON does not know. */
  datatype Unit = Outside(b: byte) | Inside(b: byte) | Odd(b: byte)

  /** What an escape with this letter stands for (section 7 of RFC 8259). */
  function Simple(b: byte): Unit {
    if b == QUOTE || b == BACKSLASH || b == 0x2F then Inside(b)
    else if b == 0x62 then Inside(0x08)
    else if b == 0x66 then Inside(0x0C)
    else if b == 0x6E then Inside(0x0A)
    else if b == 0x72 then Inside(0x0D)
    else if b == 0x74 then Inside(0x09)
    else Odd(b)
  }

  function Contents(s: seq<byte>): seq<Unit> {
    seq(|s|, k requires 0 <= k < |s| => Inside(s[k]))
  }

  /** The character that an escape of this size stands for. */
  function Character(s: seq<byte>): nat
    requires EscapeSize(s).Some?
    ensures Character(s) < 0x110000
  {
    Hex4Fits(s[2..]);
    if EscapeSize(s).value == 6 then Code(s)
    else 0x10000 + (Code(s) - 0xD800) * 0x400 + (Code(s[6..]) - 0xDC00)
  }

  /** The bytes between strings, and the UTF-8 contents of the strings. */
  function Meaning(s: seq<byte>, inString: bool): seq<Unit>
    requires Scans(s, inString)
    decreases |s|
  {
    if s == [] then []
    else if !inString then [Outside(s[0])] + Meaning(s[1..], s[0] == QUOTE)
    else if s[0] == QUOTE then [Outside(s[0])] + Meaning(s[1..], false)
    else if s[0] != BACKSLASH then [Inside(s[0])] + Meaning(s[1..], true)
    else if s[1] != LETTER_U then [Simple(s[1])] + Meaning(s[2..], true)
    else Contents(Encode(Character(s))) + Meaning(s[EscapeSize(s).value..], true)
  }
}
