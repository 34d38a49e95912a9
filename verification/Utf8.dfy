/**
 UTF-8 as RFC 3629 defines it, by the automaton that accepts it byte by byte.
 */
module Utf8 {
  import opened Basics

  type byte = x: int | 0 <= x < 256

  /** Between characters, or what the rest of a character has to look like; `Bad` is final. */
  datatype Place = Between | One | Two | Three | AfterE0 | AfterED | AfterF0 | AfterF4 | Bad

  predicate Tail(b: byte) {
    0x80 <= b <= 0xBF
  }

  function Step(p: Place, b: byte): Place {
    match p
    case Between =>
      if b < 0x80 then Between
      else if 0xC2 <= b <= 0xDF then One
      else if b == 0xE0 then AfterE0
      else if b == 0xED then AfterED
      else if 0xE1 <= b <= 0xEF then Two
      else if b == 0xF0 then AfterF0
      else if 0xF1 <= b <= 0xF3 then Three
      else if b == 0xF4 then AfterF4
      else Bad
    case One => if Tail(b) then Between else Bad
    case Two => if Tail(b) then One else Bad
    case Three => if Tail(b) then Two else Bad
    case AfterE0 => if 0xA0 <= b <= 0xBF then One else Bad
    case AfterED => if 0x80 <= b <= 0x9F then One else Bad
    case AfterF0 => if 0x90 <= b <= 0xBF then Two else Bad
    case AfterF4 => if 0x80 <= b <= 0x8F then Two else Bad
    case Bad => Bad
  }

  /** Where the automaton gets from `p` by reading `s`. */
  function Read(p: Place, s: seq<byte>): Place
    decreases |s|
  {
    if s == [] then p else Read(Step(p, s[0]), s[1..])
  }

  predicate Valid(s: seq<byte>) {
    Read(Between, s).Between?
  }

  lemma {:induction false} ReadAppend(p: Place, a: seq<byte>, b: seq<byte>)
    ensures Read(p, a + b) == Read(Read(p, a), b)
    decreases |a|
  {
    if a == [] {
      assert a + b == b;
    } else {
      ReadAppend(Step(p, a[0]), a[1..], b);
      assert (a + b)[1..] == a[1..] + b;
    }
  }

  lemma ReadFirst(p: Place, b: byte, rest: seq<byte>)
    ensures Read(p, [b] + rest) == Read(Step(p, b), rest)
  {
    assert ([b] + rest)[1..] == rest;
  }

  lemma {:induction false} BadStaysBad(s: seq<byte>)
    ensures Read(Bad, s).Bad?
  {
    if s != [] {
      BadStaysBad(s[1..]);
    }
  }

  /** How many bytes finish the character begun, if they do. */
  function Rest(p: Place, s: seq<byte>): Option<nat>
    decreases |s|
  {
    if p.Bad? then None
    else if p.Between? then Some(0)
    else if s == [] then None
    else
      var more := Rest(Step(p, s[0]), s[1..]);
      if more.Some? then Some(more.value + 1) else None
  }

  /** The size of the first character; 1 where there is no valid one. */
  function RuneSize(s: seq<byte>): nat
    requires s != []
  {
    var more := Rest(Step(Between, s[0]), s[1..]);
    if more.Some? then more.value + 1 else 1
  }

  lemma {:induction false} RestIsHigh(p: Place, s: seq<byte>)
    requires Rest(p, s).Some?
    ensures Rest(p, s).value <= |s| && forall k | 0 <= k < Rest(p, s).value :: s[k] >= 0x80
    decreases |s|
  {
    if !p.Between? {
      RestIsHigh(Step(p, s[0]), s[1..]);
      forall k | 0 <= k < Rest(p, s).value
        ensures s[k] >= 0x80
      {
        if k > 0 {
          assert s[k] == s[1..][k - 1];
        }
      }
    }
  }

  /** A character of more than one byte has no byte below 0x80. */
  lemma LongRunesAreHigh(s: seq<byte>)
    requires s != []
    ensures 1 <= RuneSize(s) <= |s|
    ensures RuneSize(s) > 1 ==> forall k | 0 <= k < RuneSize(s) :: s[k] >= 0x80
  {
    var p := Step(Between, s[0]);
    if Rest(p, s[1..]).Some? {
      RestIsHigh(p, s[1..]);
      if RuneSize(s) > 1 {
        forall k | 0 <= k < RuneSize(s)
          ensures s[k] >= 0x80
        {
          if k > 0 {
            assert s[k] == s[1..][k - 1];
          }
        }
      }
    }
  }

  /** The encoding of a code point of the basic multilingual plane, or of a supplementary one. */
  function Encode(code: nat): seq<byte>
    requires code < 0x110000
  {
    if code < 0x80 then [code]
    else if code < 0x800 then [0xC0 + code / 64, 0x80 + code % 64]
    else if code < 0x10000 then [0xE0 + code / 4096, 0x80 + code / 64 % 64, 0x80 + code % 64]
    else [0xF0 + code / 262144, 0x80 + code / 4096 % 64, 0x80 + code / 64 % 64, 0x80 + code % 64]
  }

  // ---- the automaton accepts exactly the encodings of scalar values ----

  predicate Scalar(code: nat) {
    code < 0xD800 || 0xE000 <= code < 0x110000
  }

  predicate Scalars(codes: seq<nat>) {
    forall k | 0 <= k < |codes| :: Scalar(codes[k])
  }

  function EncodeAll(codes: seq<nat>): seq<byte>
    requires Scalars(codes)
  {
    if codes == [] then [] else Encode(codes[0]) + EncodeAll(codes[1..])
  }

  function Bits(b: byte): int {
    b - 0x80
  }

  /** The code in the first `n` bytes. */
  function Decoded(s: seq<byte>, n: nat): int
    requires 1 <= n <= |s| && n <= 4
  {
    if n == 1 then s[0]
    else if n == 2 then (s[0] - 0xC0) * 64 + Bits(s[1])
    else if n == 3 then (s[0] - 0xE0) * 4096 + Bits(s[1]) * 64 + Bits(s[2])
    else (s[0] - 0xF0) * 262144 + Bits(s[1]) * 4096 + Bits(s[2]) * 64 + Bits(s[3])
  }

  /** The size of a character by its first byte. */
  function SizeOf(b: byte): nat {
    if b < 0x80 then 1 else if b < 0xE0 then 2 else if b < 0xF0 then 3 else 4
  }

  /** The code in units of 64. */
  lemma Sixes(code: nat)
    ensures code == code / 64 * 64 + code % 64
    ensures code / 4096 == code / 64 / 64 && code / 262144 == code / 64 / 64 / 64
  {
  }

  lemma Composed(q: nat, m: nat)
    requires m < 64
    ensures (q * 64 + m) / 64 == q && (q * 64 + m) % 64 == m
  {
  }

  /** Encoding is undone by decoding, and is read as one whole character. */
  lemma EncodedIsRead(code: nat)
    requires Scalar(code)
    ensures var e := Encode(code); |e| == SizeOf(e[0]) && Decoded(e, |e|) == code
    ensures Read(Between, Encode(code)) == Between
  {
    ReadUpTo4(Between, Encode(code));
    if 0x80 <= code < 0x800 {
      EncodedAsTwo(code);
    } else if 0x800 <= code < 0x10000 {
      EncodedAsThree(code);
    } else if code >= 0x10000 {
      EncodedAsFour(code);
    }
  }

  lemma EncodedAsTwo(code: nat)
    requires 0x80 <= code < 0x800
    ensures var e := Encode(code); Decoded(e, 2) == code && 0xC2 <= e[0] <= 0xDF && Tail(e[1])
  {
    Sixes(code);
  }

  lemma EncodedAsThree(code: nat)
    requires 0x800 <= code < 0x10000 && Scalar(code)
    ensures var e := Encode(code);
            && |e| == 3 && Decoded(e, 3) == code && 0xE0 <= e[0] <= 0xEF && Tail(e[1]) && Tail(e[2])
            && (e[0] == 0xE0 ==> e[1] >= 0xA0) && (e[0] == 0xED ==> e[1] <= 0x9F)
  {
    Sixes(code);
    Sixes(code / 64);
  }

  lemma EncodedAsFour(code: nat)
    requires 0x10000 <= code < 0x110000
    ensures var e := Encode(code);
            && |e| == 4 && Decoded(e, 4) == code && 0xF0 <= e[0] <= 0xF4 && Tail(e[1]) && Tail(e[2]) && Tail(e[3])
            && (e[0] == 0xF0 ==> e[1] >= 0x90) && (e[0] == 0xF4 ==> e[1] <= 0x8F)
  {
    Sixes(code);
    Sixes(code / 64);
    Sixes(code / 64 / 64);
  }

  function Places(p: Place, s: seq<byte>): Place
    requires 1 <= |s| <= 4
  {
    var p1 := Step(p, s[0]);
    if |s| == 1 then p1
    else if |s| == 2 then Step(p1, s[1])
    else if |s| == 3 then Step(Step(p1, s[1]), s[2])
    else Step(Step(Step(p1, s[1]), s[2]), s[3])
  }

  /** Reading at most four bytes, step by step. */
  lemma {:induction false} ReadUpTo4(p: Place, s: seq<byte>)
    requires 1 <= |s| <= 4
    ensures Read(p, s) == Places(p, s)
    decreases |s|
  {
    if |s| > 1 {
      ReadUpTo4(Step(p, s[0]), s[1..]);
    } else {
      assert s[1..] == [];
    }
  }

  /** A valid text starts with the encoding of a scalar value, and what follows is valid. */
  lemma FirstCharacter(s: seq<byte>) returns (code: nat)
    requires Valid(s) && s != []
    ensures Scalar(code) && |Encode(code)| <= |s| && s[..|Encode(code)|] == Encode(code)
    ensures Valid(s[|Encode(code)|..])
  {
    var n := CharacterIsWhole(s);
    code := DecodeFirst(s[..n]);
  }

  /** The automaton is between characters again after the bytes that the first byte announces. */
  lemma CharacterIsWhole(s: seq<byte>) returns (n: nat)
    requires Valid(s) && s != []
    ensures n == SizeOf(s[0]) <= |s| && Read(Between, s[..n]) == Between && Valid(s[n..])
  {
    n := SizeOf(s[0]);
    if |s| < n {
      ReadUpTo4(Between, s);
      assert false;
    }
    assert s == s[..n] + s[n..];
    ReadAppend(Between, s[..n], s[n..]);
    ReadUpTo4(Between, s[..n]);
    BadStaysBad(s[n..]);
  }

  lemma DecodeFirst(s: seq<byte>) returns (code: nat)
    requires 1 <= |s| == SizeOf(s[0]) && Read(Between, s) == Between
    ensures Scalar(code) && Encode(code) == s
  {
    ReadUpTo4(Between, s);
    if |s| == 1 {
      code := s[0];
    } else if |s| == 2 {
      code := DecodeTwo(s[0], s[1]);
    } else if |s| == 3 {
      code := DecodeThree(s[0], s[1], s[2]);
    } else {
      code := DecodeFour(s[0], s[1], s[2], s[3]);
    }
  }

  lemma DecodeTwo(a: byte, b: byte) returns (code: nat)
    requires 0xC2 <= a <= 0xDF && Tail(b)
    ensures Scalar(code) && Encode(code) == [a, b]
  {
    code := (a - 0xC0) * 64 + Bits(b);
    Composed(a - 0xC0, Bits(b));
  }

  lemma DecodeThree(a: byte, b: byte, c: byte) returns (code: nat)
    requires 0xE0 <= a <= 0xEF && Tail(b) && Tail(c)
    requires (a == 0xE0 ==> b >= 0xA0) && (a == 0xED ==> b <= 0x9F)
    ensures Scalar(code) && Encode(code) == [a, b, c]
  {
    var high := (a - 0xE0) * 64 + Bits(b);
    code := high * 64 + Bits(c);
    Composed(high, Bits(c));
    Composed(a - 0xE0, Bits(b));
    Sixes(code);
  }

  lemma DecodeFour(a: byte, b: byte, c: byte, d: byte) returns (code: nat)
    requires 0xF0 <= a <= 0xF4 && Tail(b) && Tail(c) && Tail(d)
    requires (a == 0xF0 ==> b >= 0x90) && (a == 0xF4 ==> b <= 0x8F)
    ensures Scalar(code) && Encode(code) == [a, b, c, d]
  {
    var top := (a - 0xF0) * 64 + Bits(b);
    var high := top * 64 + Bits(c);
    code := high * 64 + Bits(d);
    Composed(high, Bits(d));
    Composed(top, Bits(c));
    Composed(a - 0xF0, Bits(b));
    Sixes(code);
  }

  /** A text is valid exactly when it encodes some scalar values, one after another. */
  lemma {:induction false} ValidIffEncoded(s: seq<byte>)
    ensures Valid(s) <==> exists codes :: Scalars(codes) && s == EncodeAll(codes)
  {
    if Valid(s) {
      var codes := DecodeAll(s);
    }
    if codes :| Scalars(codes) && s == EncodeAll(codes) {
      EncodedIsValid(codes);
    }
  }

  lemma {:induction false} EncodedIsValid(codes: seq<nat>)
    requires Scalars(codes)
    ensures Valid(EncodeAll(codes))
  {
    if codes != [] {
      EncodedIsValid(codes[1..]);
      EncodedIsRead(codes[0]);
      ReadAppend(Between, Encode(codes[0]), EncodeAll(codes[1..]));
    }
  }

  lemma {:induction false} DecodeAll(s: seq<byte>) returns (codes: seq<nat>)
    requires Valid(s)
    ensures Scalars(codes) && s == EncodeAll(codes)
    decreases |s|
  {
    if s == [] {
      codes := [];
    } else {
      var code := FirstCharacter(s);
      var n := |Encode(code)|;
      var more := DecodeAll(s[n..]);
      codes := [code] + more;
      assert codes[1..] == more && s == s[..n] + s[n..];
    }
  }

  /** No two sequences of scalar values have the same encoding. */
  lemma {:induction false} EncodingIsUnique(a: seq<nat>, b: seq<nat>)
    requires Scalars(a) && Scalars(b) && EncodeAll(a) == EncodeAll(b)
    ensures a == b
  {
    if a != [] && b != [] {
      EncodedIsRead(a[0]);
      EncodedIsRead(b[0]);
      var s, e, f := EncodeAll(a), Encode(a[0]), Encode(b[0]);
      assert s[0] == e[0] == f[0] && |e| == |f|;
      assert s[..|e|] == e == f && s[|e|..] == EncodeAll(a[1..]) == EncodeAll(b[1..]);
      EncodingIsUnique(a[1..], b[1..]);
      assert a == [a[0]] + a[1..] && b == [b[0]] + b[1..];
    }
  }
}
