/**
 Canonicalisation preserves meaning: on every text that the validator accepts it succeeds, and its
 output is accepted, says the same, is not longer, and is its own canonical form.
 */
module CanonicalProofs {
  import opened Basics
  import opened Utf8
  import opened Canonical

  // ---- one token at a time ----

  lemma AfterOutside(b: byte, rest: seq<byte>)
    ensures Scans([b] + rest, false) == Scans(rest, b == QUOTE)
    ensures Canon([b] + rest, false) == Before([b], Canon(rest, b == QUOTE))
    ensures Scans(rest, b == QUOTE) ==> Meaning([b] + rest, false) == [Outside(b)] + Meaning(rest, b == QUOTE)
  {
    var s := [b] + rest;
    assert s[..1] == [b] && s[1..] == rest;
  }

  lemma AfterQuote(rest: seq<byte>)
    ensures Scans([QUOTE] + rest, true) == Scans(rest, false)
    ensures Canon([QUOTE] + rest, true) == Before([QUOTE], Canon(rest, false))
    ensures Scans(rest, false) ==> Meaning([QUOTE] + rest, true) == [Outside(QUOTE)] + Meaning(rest, false)
  {
    var s := [QUOTE] + rest;
    assert s[..1] == [QUOTE] && s[1..] == rest;
  }

  predicate Literal(b: byte) {
    b != QUOTE && b != BACKSLASH && b >= 0x20
  }

  lemma AfterLiteral(b: byte, rest: seq<byte>)
    requires Literal(b)
    ensures Scans([b] + rest, true) == Scans(rest, true)
    ensures Canon([b] + rest, true) == Before([b], Canon(rest, true))
    ensures Scans(rest, true) ==> Meaning([b] + rest, true) == [Inside(b)] + Meaning(rest, true)
  {
    var s := [b] + rest;
    assert s[..1] == [b] && s[1..] == rest;
  }

  lemma AfterSimple(b: byte, rest: seq<byte>)
    requires b != LETTER_U
    ensures Scans([BACKSLASH, b] + rest, true) == Scans(rest, true)
    ensures Canon([BACKSLASH, b] + rest, true) == Before([BACKSLASH, b], Canon(rest, true))
    ensures Scans(rest, true) ==> Meaning([BACKSLASH, b] + rest, true) == [Simple(b)] + Meaning(rest, true)
  {
    var s := [BACKSLASH, b] + rest;
    assert s[..2] == [BACKSLASH, b] && s[2..] == rest;
  }

  /** An escape is recognised by its own bytes. */
  lemma EscapeIsLocal(e: seq<byte>, rest: seq<byte>)
    requires EscapeAt(e)
    ensures EscapeAt(e + rest) && Code(e + rest) == Code(e)
  {
    assert (e + rest)[2..] == e[2..] + rest;
  }

  lemma SizeIsLocal(e: seq<byte>, rest: seq<byte>)
    requires EscapeSize(e) == Some(|e|)
    ensures EscapeSize(e + rest) == Some(|e|) && Character(e + rest) == Character(e)
  {
    EscapeIsLocal(e, rest);
    if |e| == 12 {
      EscapeIsLocal(e[6..], rest);
      assert (e + rest)[6..] == e[6..] + rest;
    }
  }

  lemma AfterEscape(e: seq<byte>, rest: seq<byte>)
    requires EscapeSize(e) == Some(|e|)
    ensures Scans(e + rest, true) == Scans(rest, true)
    ensures Scans(rest, true) ==> Meaning(e + rest, true) == Contents(Encode(Character(e))) + Meaning(rest, true)
  {
    SizeIsLocal(e, rest);
    assert (e + rest)[|e|..] == rest;
  }

  lemma CanonOfEscape(e: seq<byte>, rest: seq<byte>)
    requires EscapeAt(e) && |e| == 6
    ensures Canon(e + rest, true) == Before(Rewritten(e), Canon(rest, true))
  {
    EscapeIsLocal(e, rest);
    assert (e + rest)[6..] == rest && (e + rest)[..6] == e == e[..6];
  }

  lemma BeforeTwice(a: seq<byte>, b: seq<byte>, rest: Option<seq<byte>>)
    ensures Before(a, Before(b, rest)) == Before(a + b, rest)
  {
    if rest.Some? {
      assert a + (b + rest.value) == a + b + rest.value;
    }
  }

  lemma BeforeNothing(rest: Option<seq<byte>>)
    ensures Before([], rest) == rest
  {
    if rest.Some? {
      assert [] + rest.value == rest.value;
    }
  }

  lemma CanonOfPair(e: seq<byte>, rest: seq<byte>)
    requires EscapeSize(e) == Some(12) && |e| == 12
    ensures Canon(e + rest, true) == Before(e, Canon(rest, true))
  {
    var a, b := e[..6], e[6..];
    assert a[2..] == e[2..6] && EscapeAt(a) && Code(a) == Code(e);
    CanonOfEscape(a, b + rest);
    CanonOfEscape(b, rest);
    assert e + rest == a + (b + rest) && e == a + b;
    BeforeTwice(a, b, Canon(rest, true));
  }

  lemma {:induction false} AfterLiterals(p: seq<byte>, rest: seq<byte>)
    requires forall k | 0 <= k < |p| :: Literal(p[k])
    ensures Scans(p + rest, true) == Scans(rest, true)
    ensures Canon(p + rest, true) == Before(p, Canon(rest, true))
    ensures Scans(rest, true) ==> Meaning(p + rest, true) == Contents(p) + Meaning(rest, true)
    decreases |p|
  {
    if p == [] {
      assert p + rest == rest && Contents(p) == [];
      BeforeNothing(Canon(rest, true));
    } else {
      var b, more := p[0], p[1..];
      AfterLiterals(more, rest);
      AfterLiteral(b, more + rest);
      assert p == [b] + more && p + rest == [b] + (more + rest);
      BeforeTwice([b], more, Canon(rest, true));
      assert Contents(p) == [Inside(b)] + Contents(more);
    }
  }

  /** The characters that lose their escapes are literal bytes, and shorter. */
  lemma PlainIsLiteral(code: nat)
    requires Plain(code)
    ensures |Encode(code)| <= 3 && forall k | 0 <= k < |Encode(code)| :: Literal(Encode(code)[k])
  {
  }

  // ---- the canonical form ----

  /** `c` is accepted like `s`, says the same, is not longer, and is canonical. */
  predicate CanonicalOf(c: seq<byte>, s: seq<byte>, inString: bool) {
    Scans(s, inString) && Scans(c, inString) && Meaning(c, inString) == Meaning(s, inString) && |c| <= |s| &&
    Canon(c, inString) == Some(c)
  }

  lemma OutsideStep(b: byte, rest: seq<byte>, c: seq<byte>)
    requires CanonicalOf(c, rest, b == QUOTE)
    ensures CanonicalOf([b] + c, [b] + rest, false)
  {
    AfterOutside(b, rest);
    AfterOutside(b, c);
  }

  lemma QuoteStep(rest: seq<byte>, c: seq<byte>)
    requires CanonicalOf(c, rest, false)
    ensures CanonicalOf([QUOTE] + c, [QUOTE] + rest, true)
  {
    AfterQuote(rest);
    AfterQuote(c);
  }

  lemma LiteralStep(b: byte, rest: seq<byte>, c: seq<byte>)
    requires Literal(b) && CanonicalOf(c, rest, true)
    ensures CanonicalOf([b] + c, [b] + rest, true)
  {
    AfterLiteral(b, rest);
    AfterLiteral(b, c);
  }

  lemma SimpleStep(b: byte, rest: seq<byte>, c: seq<byte>)
    requires b != LETTER_U && CanonicalOf(c, rest, true)
    ensures CanonicalOf([BACKSLASH, b] + c, [BACKSLASH, b] + rest, true)
  {
    AfterSimple(b, rest);
    AfterSimple(b, c);
  }

  /** An escape that is kept. */
  lemma KeptStep(e: seq<byte>, rest: seq<byte>, c: seq<byte>)
    requires EscapeSize(e) == Some(|e|) && (|e| == 6 ==> !Plain(Code(e))) && CanonicalOf(c, rest, true)
    ensures CanonicalOf(e + c, e + rest, true)
  {
    AfterEscape(e, rest);
    AfterEscape(e, c);
    if |e| == 6 {
      CanonOfEscape(e, c);
    } else {
      CanonOfPair(e, c);
    }
  }

  /** An escape that is replaced by its character. */
  lemma PlainStep(e: seq<byte>, rest: seq<byte>, c: seq<byte>)
    requires EscapeSize(e) == Some(6) && |e| == 6 && Plain(Code(e)) && CanonicalOf(c, rest, true)
    ensures CanonicalOf(Encode(Code(e)) + c, e + rest, true)
  {
    PlainIsLiteral(Code(e));
    AfterEscape(e, rest);
    AfterLiterals(Encode(Code(e)), c);
  }

  /** Canonicalisation succeeds on every accepted text and gives its canonical form. */
  lemma {:induction false} CanonSucceeds(s: seq<byte>, inString: bool)
    requires Scans(s, inString)
    ensures Canon(s, inString).Some? && CanonicalOf(Canon(s, inString).value, s, inString)
    decreases |s|
  {
    if s == [] {
    } else if !inString {
      var b, rest := s[0], s[1..];
      CanonSucceeds(rest, b == QUOTE);
      OutsideStep(b, rest, Canon(rest, b == QUOTE).value);
      assert s == [b] + rest && s[..1] == [b];
    } else if s[0] == QUOTE {
      var rest := s[1..];
      CanonSucceeds(rest, false);
      QuoteStep(rest, Canon(rest, false).value);
      assert s == [QUOTE] + rest && s[..1] == [QUOTE];
    } else if s[0] != BACKSLASH {
      var b, rest := s[0], s[1..];
      CanonSucceeds(rest, true);
      LiteralStep(b, rest, Canon(rest, true).value);
      assert s == [b] + rest && s[..1] == [b];
    } else if s[1] != LETTER_U {
      var b, rest := s[1], s[2..];
      CanonSucceeds(rest, true);
      SimpleStep(b, rest, Canon(rest, true).value);
      assert s == [BACKSLASH, b] + rest && s[..2] == [BACKSLASH, b];
    } else {
      EscapeCase(s);
    }
  }

  lemma {:induction false} EscapeCase(s: seq<byte>)
    requires Scans(s, true) && EscapeSize(s).Some?
    ensures Canon(s, true).Some? && CanonicalOf(Canon(s, true).value, s, true)
    decreases |s|, 0
  {
    var n := EscapeSize(s).value;
    var e, rest := s[..n], s[n..];
    assert s == e + rest;
    CanonSucceeds(rest, true);
    var c := Canon(rest, true).value;
    CutEscape(s, n);
    if n == 12 {
      CanonOfPair(e, rest);
      KeptStep(e, rest, c);
    } else {
      CanonOfEscape(e, rest);
      if Plain(Code(e)) {
        PlainStep(e, rest, c);
      } else {
        KeptStep(e, rest, c);
      }
    }
  }

  lemma CutEscape(s: seq<byte>, n: nat)
    requires EscapeSize(s) == Some(n)
    ensures n <= |s| && EscapeSize(s[..n]) == Some(n) && EscapeAt(s[..n])
  {
    assert s[..n][2..] == s[2..n];
    if n == 12 {
      assert s[..n][6..] == s[6..n] && s[6..n][2..] == s[8..n] && s[6..][2..] == s[8..];
    }
  }

  // ---- UTF-8 ----

  /** Escapes consist of bytes that can only stand between characters. */
  lemma {:induction false} AsciiStays(p: Place, e: seq<byte>)
    requires (forall k | 0 <= k < |e| :: e[k] < 0x80) && e != [] && !Read(p, e).Bad?
    ensures p.Between? && Read(p, e).Between?
    decreases |e|
  {
    BadStaysBad(e[1..]);
    if |e| > 1 {
      AsciiStays(Step(p, e[0]), e[1..]);
    }
  }

  lemma PlainIsUtf8(code: nat)
    requires Plain(code)
    ensures Read(Between, Encode(code)).Between?
  {
    if code >= 0x800 {
      var a, b, c := Encode(code)[0], Encode(code)[1], Encode(code)[2];
      ReadFirst(Between, a, [b, c]);
      ReadFirst(Step(Between, a), b, [c]);
      ReadFirst(Step(Step(Between, a), b), c, []);
      assert Encode(code) == [a] + [b, c] && [b, c] == [b] + [c] && [c] == [c] + [];
    } else {
      ReadFirst(Between, code, []);
      assert Encode(code) == [code] + [];
    }
  }

  lemma EscapeIsAscii(e: seq<byte>)
    requires EscapeAt(e)
    ensures forall k | 0 <= k < 6 :: e[k] < 0x80
  {
    assert forall k | 2 <= k < 6 :: e[k] == e[2..][k - 2];
  }

  lemma RewrittenReadsAlike(p: Place, s: seq<byte>)
    requires EscapeAt(s) && !Read(p, s[..6]).Bad?
    ensures Read(p, Rewritten(s)) == Read(p, s[..6])
  {
    EscapeIsAscii(s);
    AsciiStays(p, s[..6]);
    if Plain(Code(s)) {
      PlainIsUtf8(Code(s));
    }
  }

  lemma PrefixIsNotBad(p: Place, a: seq<byte>, b: seq<byte>)
    requires !Read(p, a + b).Bad?
    ensures !Read(p, a).Bad? && Read(Read(p, a), b) == Read(p, a + b)
  {
    ReadAppend(p, a, b);
    BadStaysBad(b);
  }

  /** The automaton gets to the same place by reading the canonical form. */
  lemma {:induction false} CanonReadsAlike(p: Place, s: seq<byte>, inString: bool)
    requires Canon(s, inString).Some? && !Read(p, s).Bad?
    ensures Read(p, Canon(s, inString).value) == Read(p, s)
    decreases |s|
  {
    if s != [] {
      var unicode := inString && s[0] == BACKSLASH && s[1] == LETTER_U;
      var n := if unicode then 6 else if inString && s[0] == BACKSLASH then 2 else 1;
      var next := if inString then s[0] != QUOTE else s[0] == QUOTE;
      var piece := if unicode then Rewritten(s) else s[..n];
      var c := Canon(s[n..], next).value;
      assert Canon(s, inString).value == piece + c;
      assert s == s[..n] + s[n..];
      PrefixIsNotBad(p, s[..n], s[n..]);
      CanonReadsAlike(Read(p, s[..n]), s[n..], next);
      ReadAppend(p, piece, c);
      if unicode {
        RewrittenReadsAlike(p, s);
      }
    }
  }

  // ---- the theorem ----

  /** For every accepted text: success, acceptance, the same meaning, no growth, a fixed point. */
  lemma CanonicalisationPreservesMeaning(s: seq<byte>)
    requires Accepts(s)
    ensures Scans(s, false) && Canon(s, false).Some?
    ensures var c := Canon(s, false).value;
            Accepts(c) && Scans(c, false) && Meaning(c, false) == Meaning(s, false) && |c| <= |s|
                && Canon(c, false) == Some(c)
  {
    RunesOrBytes(s, false);
    CanonSucceeds(s, false);
    CanonReadsAlike(Between, s, false);
    RunesOrBytes(Canon(s, false).value, false);
  }

  // ---- which escapes are gone ----

  /** No string of the text has a unicode escape of `<`, `>`, `&`, U+2028 or U+2029. */
  predicate Bare(s: seq<byte>, inString: bool)
    decreases |s|
  {
    if s == [] then true
    else if !inString then Bare(s[1..], s[0] == QUOTE)
    else if s[0] == QUOTE then Bare(s[1..], false)
    else if s[0] != BACKSLASH then Bare(s[1..], true)
    else if |s| < 2 || (s[1] == LETTER_U && !EscapeAt(s)) then true
    else if s[1] != LETTER_U then Bare(s[2..], true)
    else Code(s) !in {0x3C, 0x3E, 0x26, 0x2028, 0x2029} && Bare(s[6..], true)
  }

  /** Canonicalisation leaves a text without such escapes alone, and makes any other shorter. */
  lemma {:induction false} BareIsUnchanged(s: seq<byte>, inString: bool)
    requires Canon(s, inString).Some?
    ensures var c := Canon(s, inString).value;
            if Bare(s, inString) then c == s else |c| < |s|
    decreases |s|
  {
    if s != [] {
      if !inString || s[0] == QUOTE || s[0] != BACKSLASH {
        BareIsUnchanged(s[1..], if inString then s[0] != QUOTE else s[0] == QUOTE);
        assert s == s[..1] + s[1..];
      } else if s[1] != LETTER_U {
        BareIsUnchanged(s[2..], true);
        assert s == s[..2] + s[2..];
      } else {
        BareIsUnchanged(s[6..], true);
        assert s == s[..6] + s[6..];
      }
    }
  }

  /** The canonical form has none of the five escapes, and a text is its own canonical form exactly if it has none. */
  lemma CanonicalIffBare(s: seq<byte>)
    requires Accepts(s)
    ensures Canon(s, false).Some? && Bare(Canon(s, false).value, false)
    ensures Canon(s, false) == Some(s) <==> Bare(s, false)
  {
    CanonicalisationPreservesMeaning(s);
    BareIsUnchanged(s, false);
    BareIsUnchanged(Canon(s, false).value, false);
  }

  // ---- the loops ----

  method HexLoop(s: seq<byte>) returns (value: nat, ok: bool)
    ensures ok == Hex4(s).Some? && (ok ==> value == Hex4(s).value)
  {
    if |s| < 4 {
      return 0, false;
    }
    value := 0;
    for k := 0 to 4
      invariant forall j | 0 <= j < k :: Digit(s[j]).Some?
      invariant k == 1 ==> value == Digit(s[0]).value
      invariant k == 2 ==> value == Digit(s[0]).value * 16 + Digit(s[1]).value
      invariant k == 3 ==> value == Digit(s[0]).value * 256 + Digit(s[1]).value * 16 + Digit(s[2]).value
      invariant k == 4 ==> Hex4(s) == Some(value)
      invariant k == 0 ==> value == 0
    {
      var digit := Digit(s[k]);
      if digit.None? {
        return 0, false;
      }
      value := value * 16 + digit.value;
    }
    return value, true;
  }

  method ValidJsonScalars(data: seq<byte>) returns (ok: bool)
    ensures ok == Accepts(data)
  {
    if !Utf8.Valid(data) {
      return false;
    }
    var inString, i := false, 0;
    while i < |data|
      invariant 0 <= i <= |data|
      invariant ScansRunes(data[i..], inString) == ScansRunes(data, false)
    {
      ghost var s := data[i..];
      var b := data[i];
      if !inString {
        assert s[1..] == data[i + 1..];
        inString := b == QUOTE;
        i := i + 1;
      } else if b == QUOTE {
        assert s[1..] == data[i + 1..];
        inString := false;
        i := i + 1;
      } else if b != BACKSLASH {
        if b < 0x20 {
          return false;
        }
        var size := RuneSize(data[i..]);
        LongRunesAreHigh(data[i..]);
        assert s[size..] == data[i + size..];
        i := i + size;
      } else if i + 1 >= |data| {
        return false;
      } else if data[i + 1] != LETTER_U {
        assert s[2..] == data[i + 2..];
        i := i + 2;
      } else {
        var size := EscapeLength(data, i);
        if size.None? {
          return false;
        }
        assert s[size.value..] == data[i + size.value..];
        i := i + size.value;
      }
    }
    return !inString;
  }

  method EscapeLength(data: seq<byte>, i: nat) returns (size: Option<nat>)
    requires i + 2 <= |data| && data[i] == BACKSLASH && data[i + 1] == LETTER_U
    ensures size == EscapeSize(data[i..])
    ensures size.Some? ==> i + size.value <= |data|
  {
    ghost var s := data[i..];
    assert s[2..] == data[i + 2..];
    var first, ok := HexLoop(data[i + 2..]);
    if !ok {
      return None;
    }
    if High(first) {
      assert s[6..] == data[i + 6..];
      if i + 12 > |data| || data[i + 6] != BACKSLASH || data[i + 7] != LETTER_U {
        return None;
      }
      assert s[6..][2..] == data[i + 8..];
      var second, found := HexLoop(data[i + 8..]);
      if !found || second < 0xDC00 || second > 0xDFFF {
        return None;
      }
      return Some(12);
    }
    if Low(first) {
      return None;
    }
    return Some(6);
  }

  method CanonicalizeEscapes(data: seq<byte>) returns (out: Option<seq<byte>>)
    ensures out == Canon(data, false)
  {
    var written, inString, i := [], false, 0;
    assert data[0..] == data;
    BeforeNothing(Canon(data, false));
    while i < |data|
      invariant 0 <= i <= |data|
      invariant Before(written, Canon(data[i..], inString)) == Canon(data, false)
    {
      ghost var s := data[i..];
      var b := data[i];
      if !inString || b != BACKSLASH {
        ghost var next := if inString then b != QUOTE else b == QUOTE;
        assert s[1..] == data[i + 1..] && s[..1] == [b];
        BeforeTwice(written, [b], Canon(data[i + 1..], next));
        written := written + [b];
        if b == QUOTE {
          inString := !inString;
        }
        i := i + 1;
      } else if i + 1 >= |data| {
        return None;
      } else if data[i + 1] != LETTER_U {
        assert s[2..] == data[i + 2..] && s[..2] == data[i..i + 2];
        BeforeTwice(written, data[i..i + 2], Canon(data[i + 2..], true));
        written := written + data[i..i + 2];
        i := i + 2;
      } else {
        assert s[2..] == data[i + 2..];
        var code, ok := HexLoop(data[i + 2..]);
        if !ok {
          return None;
        }
        assert s[6..] == data[i + 6..] && s[..6] == data[i..i + 6];
        var piece := if Plain(code) then Encode(code) else data[i..i + 6];
        BeforeTwice(written, piece, Canon(data[i + 6..], true));
        written := written + piece;
        i := i + 6;
      }
    }
    assert written + [] == written;
    return if inString then None else Some(written);
  }
}
