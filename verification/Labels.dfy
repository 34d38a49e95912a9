/**
 Fitting peer labels into a control message: labels are blanked and then grown again, one
 character each in turn, as long as the label and the whole encoded message stay within limits.
 */
module Labels {
  import opened Basics
  import opened Utf8
  import opened Canonical
  import opened CanonicalProofs

  type rune = x: int | 0 <= x < 0x110000
  type Label = seq<rune>

  const LABEL_LIMIT: nat := 32
  const ENVELOPE_LIMIT: nat := 1024

  // ---- what a character costs ----

  /** The letter of the two-byte escape of this character, if it has one. */
  function ShortEscape(c: rune): Option<byte> {
    if c == 0x22 || c == 0x5C then Some(c)
    else if c == 0x08 then Some(0x62)
    else if c == 0x0C then Some(0x66)
    else if c == 0x0A then Some(0x6E)
    else if c == 0x0D then Some(0x72)
    else if c == 0x09 then Some(0x74)
    else None
  }

  function RuneLength(c: rune): nat {
    if c < 0x80 then 1 else if c < 0x800 then 2 else if c < 0x10000 then 3 else 4
  }

  /** Bytes of the character in a canonical string. */
  function ContentCost(c: rune): nat {
    if ShortEscape(c).Some? then 2 else if c < 0x20 then 6 else RuneLength(c)
  }

  /** Bytes of the character as Go's encoder first writes it, with `<`, `>`, `&`, U+2028 and U+2029 escaped. */
  function EscapedCost(c: rune): nat {
    if Plain(c) then 6 else ContentCost(c)
  }

  function Content(l: Label): nat {
    if l == [] then 0 else Content(l[..|l| - 1]) + ContentCost(l[|l| - 1])
  }

  function Escaped(l: Label): nat {
    if l == [] then 0 else Escaped(l[..|l| - 1]) + EscapedCost(l[|l| - 1])
  }

  method ContentBytes(l: Label) returns (bytes: nat)
    ensures bytes == Content(l)
  {
    bytes := 0;
    for k := 0 to |l|
      invariant bytes == Content(l[..k])
    {
      assert l[..k + 1][..k] == l[..k];
      if ShortEscape(l[k]).Some? {
        bytes := bytes + 2;
      } else if l[k] < 0x20 {
        bytes := bytes + 6;
      } else {
        bytes := bytes + RuneLength(l[k]);
      }
    }
    assert l[..|l|] == l;
  }

  // ---- the costs are those of the encoder and of canonicalisation ----

  function HexDigit(d: nat): byte
    requires d < 16
  {
    if d < 10 then 0x30 + d else 0x61 + d - 10
  }

  function UnicodeEscape(c: nat): seq<byte>
    requires c < 0x10000
  {
    [BACKSLASH, LETTER_U, HexDigit(c / 16 / 16 / 16), HexDigit(c / 16 / 16 % 16), HexDigit(c / 16 % 16),
        HexDigit(c % 16)]
  }

  /** The character as Go's encoder writes it inside a string. */
  function Write(c: rune): seq<byte> {
    if ShortEscape(c).Some? then [BACKSLASH, ShortEscape(c).value]
    else if c < 0x20 || Plain(c) then UnicodeEscape(c)
    else Encode(c)
  }

  /** The character in the canonical form. */
  function Settle(c: rune): seq<byte> {
    if Plain(c) then Encode(c) else Write(c)
  }

  lemma DigitOfHex(d: nat)
    requires d < 16
    ensures Digit(HexDigit(d)) == Some(d)
  {
  }

  lemma HexOfEscape(c: nat)
    requires c < 0x10000
    ensures EscapeAt(UnicodeEscape(c)) && Code(UnicodeEscape(c)) == c
  {
    var a := c / 16;
    var b := a / 16;
    FourDigits(b / 16, b % 16, a % 16, c % 16);
  }

  lemma FourDigits(p: nat, q: nat, r: nat, t: nat)
    requires p < 16 && q < 16 && r < 16 && t < 16
    ensures Hex4([HexDigit(p), HexDigit(q), HexDigit(r), HexDigit(t)]) == Some(p * 4096 + q * 256 + r * 16 + t)
    ensures var e := [BACKSLASH, LETTER_U, HexDigit(p), HexDigit(q), HexDigit(r), HexDigit(t)];
            EscapeAt(e) && Code(e) == p * 4096 + q * 256 + r * 16 + t
  {
    DigitOfHex(p);
    DigitOfHex(q);
    DigitOfHex(r);
    DigitOfHex(t);
    var e := [BACKSLASH, LETTER_U, HexDigit(p), HexDigit(q), HexDigit(r), HexDigit(t)];
    assert e[2..] == [HexDigit(p), HexDigit(q), HexDigit(r), HexDigit(t)];
  }

  lemma EncodedIsLiteral(c: rune)
    requires ShortEscape(c).None? && c >= 0x20
    ensures forall k | 0 <= k < |Encode(c)| :: Literal(Encode(c)[k])
  {
  }

  /**
   Canonicalising what the encoder writes for a character gives its canonical bytes, and the costs are their sizes.
   */
  lemma WrittenIsSettled(c: rune, rest: seq<byte>)
    ensures Canon(Write(c) + rest, true) == Before(Settle(c), Canon(rest, true))
    ensures |Write(c)| == EscapedCost(c) && |Settle(c)| == ContentCost(c)
  {
    if ShortEscape(c).Some? {
      AfterSimple(ShortEscape(c).value, rest);
    } else if c < 0x20 || Plain(c) {
      HexOfEscape(c);
      CanonOfEscape(UnicodeEscape(c), rest);
      assert UnicodeEscape(c)[..6] == UnicodeEscape(c);
    } else {
      EncodedIsLiteral(c);
      AfterLiterals(Encode(c), rest);
    }
  }

  function WriteAll(l: Label): seq<byte> {
    if l == [] then [] else WriteAll(l[..|l| - 1]) + Write(l[|l| - 1])
  }

  function SettleAll(l: Label): seq<byte> {
    if l == [] then [] else SettleAll(l[..|l| - 1]) + Settle(l[|l| - 1])
  }

  /** The two sizes of a label are those of its bytes before and after canonicalisation. */
  lemma {:induction false} LabelSizes(l: Label)
    ensures |WriteAll(l)| == Escaped(l) && |SettleAll(l)| == Content(l)
    decreases |l|
  {
    if l != [] {
      LabelSizes(l[..|l| - 1]);
      WrittenIsSettled(l[|l| - 1], []);
    }
  }

  lemma {:induction false} LabelIsSettled(l: Label, rest: seq<byte>)
    ensures Canon(WriteAll(l) + rest, true) == Before(SettleAll(l), Canon(rest, true))
    decreases |l|
  {
    if l == [] {
      assert WriteAll(l) + rest == rest;
      BeforeNothing(Canon(rest, true));
    } else {
      var front, last := l[..|l| - 1], l[|l| - 1];
      LabelIsSettled(front, Write(last) + rest);
      WrittenIsSettled(last, rest);
      Associates(WriteAll(front), Write(last), rest);
      BeforeTwice(SettleAll(front), Settle(last), Canon(rest, true));
    }
  }

  /** The two sizes of a label agree exactly when it has none of the five characters that Go's encoder escapes. */
  lemma {:induction false} SizesAgreeIffNothingPlain(l: Label)
    ensures Content(l) <= Escaped(l)
    ensures Content(l) == Escaped(l) <==> forall k | 0 <= k < |l| :: !Plain(l[k])
    decreases |l|
  {
    if l != [] {
      var front, last := l[..|l| - 1], l[|l| - 1];
      SizesAgreeIffNothingPlain(front);
      assert forall k | 0 <= k < |l| :: l[k] == if k < |front| then front[k] else last;
    }
  }

  // ---- what fits ----

  function Total(ls: seq<Label>): nat {
    if ls == [] then 0 else Total(ls[..|ls| - 1]) + Escaped(ls[|ls| - 1])
  }

  predicate LabelFits(l: Label) {
    |l| <= LABEL_LIMIT && Content(l) <= LABEL_LIMIT
  }

  /** The labels are within their limits, and so is the message, which has `base` bytes without them. */
  predicate Fits(ls: seq<Label>, base: nat) {
    (forall k | 0 <= k < |ls| :: LabelFits(ls[k])) && base + Total(ls) <= ENVELOPE_LIMIT
  }

  /** Label `i` with one more character of its original. */
  function Longer(ls: seq<Label>, originals: seq<Label>, i: nat): seq<Label>
    requires i < |ls| == |originals| && |ls[i]| < |originals[i]|
  {
    ls[i := ls[i] + [originals[i][|ls[i]|]]]
  }

  predicate IsPrefix(l: Label, original: Label) {
    |l| <= |original| && l == original[..|l|]
  }

  /** Every label is a prefix of its original, everything fits, and no label could take its next character. */
  predicate BestFit(ls: seq<Label>, originals: seq<Label>, base: nat) {
    && |ls| == |originals| && Fits(ls, base)
    && (forall k | 0 <= k < |ls| :: IsPrefix(ls[k], originals[k]))
    && (forall k: nat | k < |ls| && |ls[k]| < |originals[k]| :: !Fits(Longer(ls, originals, k), base))
  }

  lemma {:induction false} TotalUpdate(ls: seq<Label>, i: nat, l: Label)
    requires i < |ls|
    ensures Total(ls[i := l]) == Total(ls) - Escaped(ls[i]) + Escaped(l)
    decreases |ls|
  {
    var n := |ls| - 1;
    if i == n {
      assert ls[i := l][..n] == ls[..n];
    } else {
      TotalUpdate(ls[..n], i, l);
      assert ls[i := l][..n] == ls[..n][i := l];
    }
  }

  lemma EscapedGrows(l: Label, c: rune)
    ensures Escaped(l + [c]) == Escaped(l) + EscapedCost(c) && Content(l + [c]) == Content(l) + ContentCost(c)
  {
    assert (l + [c])[..|l|] == l;
  }

  lemma {:induction false} TotalOfBlanks(ls: seq<Label>)
    requires forall k | 0 <= k < |ls| :: ls[k] == []
    ensures Total(ls) == 0
  {
    if ls != [] {
      TotalOfBlanks(ls[..|ls| - 1]);
    }
  }

  /** A character that does not fit does not fit either after another label has grown. */
  lemma GrowthNeverMakesRoom(ls: seq<Label>, originals: seq<Label>, base: nat, i: nat, j: nat)
    requires |ls| == |originals| && i < |ls| && j < |ls| && i != j && |ls[i]| < |originals[i]|
             && |ls[j]| < |originals[j]|
    requires Fits(ls, base) && Fits(Longer(ls, originals, i), base) && !Fits(Longer(ls, originals, j), base)
    ensures !Fits(Longer(Longer(ls, originals, i), originals, j), base)
  {
    var a, b := Longer(ls, originals, i), Longer(ls, originals, j);
    var both := Longer(a, originals, j);
    TotalUpdate(ls, i, a[i]);
    TotalUpdate(ls, j, b[j]);
    TotalUpdate(a, j, both[j]);
    EscapedGrows(ls[i], originals[i][|ls[i]|]);
    if Fits(both, base) {
      forall k | 0 <= k < |b|
        ensures LabelFits(b[k])
      {
        assert LabelFits(if k == j then both[k] else ls[k]);
      }
    }
  }

  // ---- fair shares ----

  function Cut(l: Label, n: nat): Label {
    if |l| <= n then l else l[..n]
  }

  /** The labels as they were when the character after the first `n` was tried for label `j`: it was not their turn. */
  function AtTurn(ls: seq<Label>, n: nat, j: nat): seq<Label> {
    seq(|ls|, k requires 0 <= k < |ls| => Cut(ls[k], if k < j then n + 1 else n))
  }

  /** Label `j` was cut because its next character did not fit when its turn came. */
  predicate CutFairly(ls: seq<Label>, originals: seq<Label>, base: nat, j: nat)
    requires j < |ls| == |originals|
  {
    |ls[j]| < |originals[j]| && !Fits(Longer(AtTurn(ls, |ls[j]|, j), originals, j), base)
  }

  /** Everything fits, and every label is its original, or was cut when its turn came. */
  predicate FairShare(ls: seq<Label>, originals: seq<Label>, base: nat) {
    && |ls| == |originals| && Fits(ls, base)
    && (forall k | 0 <= k < |ls| :: IsPrefix(ls[k], originals[k]))
    && (forall k: nat | k < |ls| && |ls[k]| < |originals[k]| :: CutFairly(ls, originals, base, k))
  }

  // ---- the loop ----

  /**
   In round `r`, with the labels before `i` done: label `k` has grown by a character in each round, or is all there,
   or was cut in its turn.
   */
  predicate Placed(ls: seq<Label>, originals: seq<Label>, at: seq<nat>, base: nat, r: nat, i: nat, k: nat)
    requires k < |ls| == |originals| == |at|
  {
    var turns := if k < i then r + 1 else r;
    && IsPrefix(ls[k], originals[k])
    && (|| at[k] == |ls[k]| == turns
        || (at[k] == |ls[k]| == |originals[k]| <= turns)
        || (at[k] == |originals[k]| && |ls[k]| < turns && CutFairly(ls, originals, base, k)))
  }

  predicate Growing(ls: seq<Label>, originals: seq<Label>, at: seq<nat>, base: nat, r: nat, i: nat) {
    && |ls| == |originals| == |at| && Fits(ls, base)
    && forall k: nat | k < |ls| :: Placed(ls, originals, at, base, r, i, k)
  }

  /** A label cut earlier stays fairly cut when label `i` takes a character in its turn. */
  lemma GrowthKeepsCuts(ls: seq<Label>, originals: seq<Label>, base: nat, i: nat, k: nat)
    requires i < |ls| == |originals| && k < |ls| && i != k && CutFairly(ls, originals, base, k)
    requires |ls[i]| < |originals[i]| && |ls[k]| + (if i < k then 1 else 0) <= |ls[i]|
    ensures CutFairly(Longer(ls, originals, i), originals, base, k)
  {
    var t := Longer(ls, originals, i);
    assert AtTurn(t, |t[k]|, k) == AtTurn(ls, |ls[k]|, k) by {
      forall m | 0 <= m < |ls|
        ensures AtTurn(t, |t[k]|, k)[m] == AtTurn(ls, |ls[k]|, k)[m]
      {
      }
    }
  }

  lemma GrowOne(ls: seq<Label>, originals: seq<Label>, at: seq<nat>, base: nat, r: nat, i: nat)
    requires Growing(ls, originals, at, base, r, i) && i < |ls| && at[i] < |originals[i]|
             && Placed(ls, originals, at, base, r, i, i)
    requires Fits(Longer(ls, originals, i), base)
    ensures Growing(Longer(ls, originals, i), originals, at[i := at[i] + 1], base, r, i + 1)
  {
    var t, at', next := Longer(ls, originals, i), at[i := at[i] + 1], i + 1;
    forall k: nat | k < |t|
      ensures Placed(t, originals, at', base, r, next, k)
    {
      assert Placed(ls, originals, at, base, r, i, k);
      if k != i && CutFairly(ls, originals, base, k) && at[k] == |originals[k]| {
        GrowthKeepsCuts(ls, originals, base, i, k);
      }
    }
  }

  lemma GiveUpOne(ls: seq<Label>, originals: seq<Label>, at: seq<nat>, base: nat, r: nat, i: nat)
    requires Growing(ls, originals, at, base, r, i) && i < |ls| && at[i] < |originals[i]|
             && Placed(ls, originals, at, base, r, i, i)
    requires !Fits(Longer(ls, originals, i), base)
    ensures Growing(ls, originals, at[i := |originals[i]|], base, r, i + 1)
  {
    var at', next := at[i := |originals[i]|], i + 1;
    var turn := AtTurn(ls, |ls[i]|, i);
    forall k: nat | k < |ls|
      ensures turn[k] == ls[k]
    {
      assert Placed(ls, originals, at, base, r, i, k);
    }
    assert turn == ls;
    forall k: nat | k < |ls|
      ensures Placed(ls, originals, at', base, r, next, k)
    {
      assert Placed(ls, originals, at, base, r, i, k);
    }
  }

  lemma PassOne(ls: seq<Label>, originals: seq<Label>, at: seq<nat>, base: nat, r: nat, i: nat)
    requires Growing(ls, originals, at, base, r, i) && i < |ls| && at[i] >= |originals[i]|
    ensures Growing(ls, originals, at, base, r, i + 1)
  {
    var next := i + 1;
    forall k: nat | k < |ls|
      ensures Placed(ls, originals, at, base, r, next, k)
    {
      assert Placed(ls, originals, at, base, r, i, k);
    }
  }

  lemma NextRound(ls: seq<Label>, originals: seq<Label>, at: seq<nat>, base: nat, r: nat)
    requires Growing(ls, originals, at, base, r, |ls|)
    ensures Growing(ls, originals, at, base, r + 1, 0)
  {
    var next := r + 1;
    forall k: nat | k < |ls|
      ensures Placed(ls, originals, at, base, next, 0, k)
    {
      assert Placed(ls, originals, at, base, r, |ls|, k);
    }
  }

  /** How many characters are still to be tried. */
  function Untried(originals: seq<Label>, at: seq<nat>): int
    requires |originals| == |at|
  {
    if at == [] then 0
    else Untried(originals[..|at| - 1], at[..|at| - 1]) + |originals[|at| - 1]| - at[|at| - 1]
  }

  lemma {:induction false} UntriedUpdate(originals: seq<Label>, at: seq<nat>, i: nat, to: nat)
    requires |originals| == |at| && i < |at|
    ensures Untried(originals, at[i := to]) == Untried(originals, at) + at[i] - to
    decreases |at|
  {
    var n := |at| - 1;
    if i == n {
      assert at[i := to][..n] == at[..n];
    } else {
      UntriedUpdate(originals[..n], at[..n], i, to);
      assert at[i := to][..n] == at[..n][i := to];
    }
  }

  lemma {:induction false} UntriedIsNat(originals: seq<Label>, at: seq<nat>)
    requires |originals| == |at| && forall k | 0 <= k < |at| :: at[k] <= |originals[k]|
    ensures Untried(originals, at) >= 0
    decreases |at|
  {
    if at != [] {
      UntriedIsNat(originals[..|at| - 1], at[..|at| - 1]);
    }
  }

  lemma PositionsStayInside(ls: seq<Label>, originals: seq<Label>, at: seq<nat>, base: nat, r: nat, i: nat)
    requires Growing(ls, originals, at, base, r, i)
    ensures forall k | 0 <= k < |at| :: at[k] <= |originals[k]|
    ensures Untried(originals, at) >= 0
  {
    forall k: nat | k < |at|
      ensures at[k] <= |originals[k]|
    {
      assert Placed(ls, originals, at, base, r, i, k);
    }
    UntriedIsNat(originals, at);
  }

  /** Tries the next character of one label, whose turn it is in round `r`. */
  method TryOne(labels: array<Label>, originals: seq<Label>, at: array<nat>, base: nat, ghost r: nat, i: nat)
    requires labels.Length == at.Length && i < at.Length && Growing(labels[..], originals, at[..], base, r, i)
    requires at[i] < |originals[i]|
    modifies labels, at
    ensures Growing(labels[..], originals, at[..], base, r, i + 1)
    ensures Untried(originals, at[..]) < old(Untried(originals, at[..]))
  {
    ghost var ls, ps := labels[..], at[..];
    assert Placed(ls, originals, ps, base, r, i, i);
    var candidate := labels[i] + [originals[i][at[i]]];
    assert Longer(ls, originals, i) == ls[i := candidate];
    var content := ContentBytes(candidate);
    if |candidate| > LABEL_LIMIT || content > LABEL_LIMIT {
      assert !LabelFits(ls[i := candidate][i]);
      GiveUpOne(ls, originals, ps, base, r, i);
      UntriedUpdate(originals, ps, i, |originals[i]|);
      at[i] := |originals[i]|;
      assert at[..] == ps[i := |originals[i]|];
      return;
    }
    var previous := labels[i];
    labels[i] := candidate;
    assert labels[..] == ls[i := candidate];
    if !Fits(labels[..], base) {
      GiveUpOne(ls, originals, ps, base, r, i);
      UntriedUpdate(originals, ps, i, |originals[i]|);
      labels[i] := previous;
      at[i] := |originals[i]|;
      assert labels[..] == ls && at[..] == ps[i := |originals[i]|];
    } else {
      GrowOne(ls, originals, ps, base, r, i);
      UntriedUpdate(originals, ps, i, ps[i] + 1);
      at[i] := at[i] + 1;
      assert at[..] == ps[i := ps[i] + 1];
    }
  }

  /** One round over all labels, the `r`-th. */
  method Round(labels: array<Label>, originals: seq<Label>, at: array<nat>, base: nat, ghost r: nat)
    returns (progress: bool)
    requires labels.Length == at.Length && Growing(labels[..], originals, at[..], base, r, 0)
    modifies labels, at
    ensures Growing(labels[..], originals, at[..], base, r + 1, 0)
    ensures progress ==> Untried(originals, at[..]) < old(Untried(originals, at[..]))
    ensures !progress ==> labels[..] == old(labels[..]) && at[..] == old(at[..]) && forall k | 0 <= k < at.Length ::
            at[k] >= |originals[k]|
  {
    progress := false;
    for i := 0 to labels.Length
      invariant Growing(labels[..], originals, at[..], base, r, i)
      invariant progress ==> Untried(originals, at[..]) < old(Untried(originals, at[..]))
      invariant !progress ==> labels[..] == old(labels[..]) && at[..] == old(at[..])
      invariant !progress ==> forall k | 0 <= k < i :: at[k] >= |originals[k]|
    {
      if at[i] < |originals[i]| {
        progress := true;
        TryOne(labels, originals, at, base, r, i);
      } else {
        PassOne(labels[..], originals, at[..], base, r, i);
      }
    }
    NextRound(labels[..], originals, at[..], base, r);
  }

  lemma NothingLeftIsFair(ls: seq<Label>, originals: seq<Label>, at: seq<nat>, base: nat, r: nat)
    requires Growing(ls, originals, at, base, r, 0) && forall k | 0 <= k < |at| :: at[k] >= |originals[k]|
    ensures FairShare(ls, originals, base)
  {
    forall k: nat | k < |ls|
      ensures IsPrefix(ls[k], originals[k])
      ensures |ls[k]| < |originals[k]| ==> CutFairly(ls, originals, base, k)
    {
      assert Placed(ls, originals, at, base, r, 0, k);
    }
  }

  /**
   Fits the labels in place. When the message does not fit even without labels this fails, and leaves
   all labels blank; otherwise each label has its fair share of what it was, and they are a best fit.
   */
  method FitLabels(labels: array<Label>, base: nat) returns (ok: bool)
    modifies labels
    ensures ok == (base <= ENVELOPE_LIMIT)
    ensures !ok ==> forall k | 0 <= k < labels.Length :: labels[k] == []
    ensures ok ==> FairShare(labels[..], old(labels[..]), base) && BestFit(labels[..], old(labels[..]), base)
  {
    var originals := labels[..];
    for k := 0 to labels.Length
      invariant forall j | 0 <= j < k :: labels[j] == []
    {
      labels[k] := [];
    }
    TotalOfBlanks(labels[..]);
    if !Fits(labels[..], base) {
      return false;
    }
    var at := new nat[labels.Length](k => 0);
    ghost var r := 0;
    assert forall k: nat | k < labels.Length :: Placed(labels[..], originals, at[..], base, r, 0, k);
    PositionsStayInside(labels[..], originals, at[..], base, r, 0);
    var progress := true;
    while progress
      invariant Growing(labels[..], originals, at[..], base, r, 0)
      invariant !progress ==> forall k | 0 <= k < at.Length :: at[k] >= |originals[k]|
      invariant Untried(originals, at[..]) >= 0
      decreases Untried(originals, at[..]), progress
    {
      progress := Round(labels, originals, at, base, r);
      r := r + 1;
      PositionsStayInside(labels[..], originals, at[..], base, r, 0);
    }
    NothingLeftIsFair(labels[..], originals, at[..], base, r);
    FairIsBest(labels[..], originals, base);
    return true;
  }

  // ---- a best fit cuts nothing that fits ----

  lemma {:induction false} PrefixIsCheaper(l: Label, n: nat)
    requires n <= |l|
    ensures Escaped(l[..n]) <= Escaped(l) && Content(l[..n]) <= Content(l)
    decreases |l|
  {
    if n < |l| {
      PrefixIsCheaper(l[..|l| - 1], n);
      assert l[..|l| - 1][..n] == l[..n];
    } else {
      assert l[..n] == l;
    }
  }

  lemma {:induction false} PrefixesAreCheaper(ls: seq<Label>, originals: seq<Label>)
    requires |ls| == |originals| && forall k | 0 <= k < |ls| :: IsPrefix(ls[k], originals[k])
    ensures Total(ls) <= Total(originals)
    decreases |ls|
  {
    if ls != [] {
      var n := |ls| - 1;
      PrefixesAreCheaper(ls[..n], originals[..n]);
      PrefixIsCheaper(originals[n], |ls[n]|);
    }
  }

  lemma PrefixesFit(ls: seq<Label>, originals: seq<Label>, base: nat)
    requires |ls| == |originals| && Fits(originals, base) && forall k | 0 <= k < |ls| :: IsPrefix(ls[k], originals[k])
    ensures Fits(ls, base)
  {
    PrefixesAreCheaper(ls, originals);
    forall k | 0 <= k < |ls|
      ensures LabelFits(ls[k])
    {
      assert LabelFits(originals[k]);
      PrefixIsCheaper(originals[k], |ls[k]|);
    }
  }

  /** Fair shares are a best fit: a character that did not fit in its turn does not fit in the end. */
  lemma FairIsBest(ls: seq<Label>, originals: seq<Label>, base: nat)
    requires FairShare(ls, originals, base)
    ensures BestFit(ls, originals, base)
  {
    forall j: nat | j < |ls| && |ls[j]| < |originals[j]|
      ensures !Fits(Longer(ls, originals, j), base)
    {
      assert CutFairly(ls, originals, base, j);
      TrimmedFits(ls, originals, base, |ls[j]|, j);
    }
  }

  lemma TrimmedFits(ls: seq<Label>, originals: seq<Label>, base: nat, n: nat, j: nat)
    requires |ls| == |originals| && j < |ls| && |ls[j]| < |originals[j]| && n == |ls[j]|
    ensures Fits(Longer(ls, originals, j), base) ==> Fits(Longer(AtTurn(ls, n, j), originals, j), base)
  {
    if Fits(Longer(ls, originals, j), base) {
      PrefixesFit(Longer(AtTurn(ls, n, j), originals, j), Longer(ls, originals, j), base);
    }
  }

  /** There is only one way to share fairly: each label in its turn, a character each. */
  lemma FairShareIsUnique(f: seq<Label>, g: seq<Label>, originals: seq<Label>, base: nat)
    requires FairShare(f, originals, base) && FairShare(g, originals, base)
    ensures f == g
  {
    forall k: nat | k < |f|
      ensures f[k] == g[k]
    {
      var n := |originals[k]|;
      SameUpTo(f, g, originals, base, n, 0);
      assert SameLabel(f[k], g[k], n);
    }
  }

  /** The two agree as far as label `i` in round `r`. */
  ghost predicate Same(f: seq<Label>, g: seq<Label>, r: nat, i: nat) {
    |f| == |g| && forall k: nat | k < |f| :: SameLabel(f[k], g[k], if k < i then r + 1 else r)
  }

  predicate SameLabel(l: Label, m: Label, n: nat) {
    Cut(l, n) == Cut(m, n)
  }

  ghost predicate BothFair(f: seq<Label>, g: seq<Label>, originals: seq<Label>, base: nat) {
    FairShare(f, originals, base) && FairShare(g, originals, base)
  }

  /** Two fair shares agree up to every turn. */
  lemma {:induction false} SameUpTo(f: seq<Label>, g: seq<Label>, originals: seq<Label>, base: nat, r: nat, i: nat)
    requires BothFair(f, g, originals, base) && i <= |f| == |g|
    ensures Same(f, g, r, i)
    decreases r, i + 1
  {
    if i > 0 {
      SameUpTo(f, g, originals, base, r, i - 1);
      SameAfterTurn(f, g, originals, base, r, i - 1);
    } else {
      SameRounds(f, g, originals, base, r);
    }
  }

  lemma {:induction false} SameRounds(f: seq<Label>, g: seq<Label>, originals: seq<Label>, base: nat, r: nat)
    requires BothFair(f, g, originals, base) && |f| == |g|
    ensures Same(f, g, r, 0)
    decreases r, 0
  {
    if r == 0 {
      NothingYet(f, g);
    } else {
      SameUpTo(f, g, originals, base, r - 1, |f|);
    }
  }

  lemma SameAfterTurn(f: seq<Label>, g: seq<Label>, originals: seq<Label>, base: nat, r: nat, j: nat)
    requires BothFair(f, g, originals, base) && j < |f| && Same(f, g, r, j)
    ensures Same(f, g, r, j + 1)
  {
    SameAtTurn(f, g, r, j);
    SameCharacter(f, g, originals, base, r, j);
    SameOneMore(f, g, r, j);
  }

  lemma SameOneMore(f: seq<Label>, g: seq<Label>, r: nat, j: nat)
    requires Same(f, g, r, j) && j < |f| && SameLabel(f[j], g[j], r + 1)
    ensures Same(f, g, r, j + 1)
  {
  }

  lemma SameCharacter(f: seq<Label>, g: seq<Label>, originals: seq<Label>, base: nat, r: nat, j: nat)
    requires BothFair(f, g, originals, base) && j < |f| == |g|
    requires AtTurn(f, r, j) == AtTurn(g, r, j) && SameLabel(f[j], g[j], r)
    ensures SameLabel(f[j], g[j], r + 1)
  {
    SameTurn(f, g, originals, base, r, j);
    SameTurn(g, f, originals, base, r, j);
    NextLabel(f[j], g[j], originals[j], r);
  }

  lemma SameAtTurn(f: seq<Label>, g: seq<Label>, r: nat, j: nat)
    requires Same(f, g, r, j)
    ensures AtTurn(f, r, j) == AtTurn(g, r, j) && (j < |f| ==> SameLabel(f[j], g[j], r))
  {
    forall k: nat | k < |f|
      ensures AtTurn(f, r, j)[k] == AtTurn(g, r, j)[k]
    {
      assert SameLabel(f[k], g[k], if k < j then r + 1 else r);
    }
  }

  lemma NextLabel(l: Label, m: Label, original: Label, r: nat)
    requires IsPrefix(l, original) && IsPrefix(m, original) && SameLabel(l, m, r) && (|l| > r <==> |m| > r)
    ensures SameLabel(l, m, r + 1)
  {
  }

  lemma NothingYet(f: seq<Label>, g: seq<Label>)
    requires |f| == |g|
    ensures Same(f, g, 0, 0)
  {
  }

  /** If both agree up to its turn, a label that takes its character in one does so in the other. */
  lemma SameTurn(f: seq<Label>, g: seq<Label>, originals: seq<Label>, base: nat, r: nat, j: nat)
    requires FairShare(f, originals, base) && FairShare(g, originals, base) && j < |f|
    requires AtTurn(f, r, j) == AtTurn(g, r, j)
    ensures |f[j]| > r ==> |g[j]| > r
  {
    if |f[j]| > r >= |g[j]| {
      assert AtTurn(f, r, j)[j] == AtTurn(g, r, j)[j];
      assert IsPrefix(f[j], originals[j]) && CutFairly(g, originals, base, j);
      TurnFits(f, originals, base, r, j);
    }
  }

  /** If label `j` has taken its next character by the end, that fitted in its turn. */
  lemma TurnFits(f: seq<Label>, originals: seq<Label>, base: nat, r: nat, j: nat)
    requires |f| == |originals| && j < |f| && r < |f[j]| && IsPrefix(f[j], originals[j]) && Fits(f, base)
    ensures |AtTurn(f, r, j)[j]| < |originals[j]| && Fits(Longer(AtTurn(f, r, j), originals, j), base)
  {
    PrefixesFit(Longer(AtTurn(f, r, j), originals, j), f, base);
  }

  /** Labels come back unchanged exactly when they fit as they are. */
  lemma UnchangedIffFits(ls: seq<Label>, originals: seq<Label>, base: nat)
    requires BestFit(ls, originals, base)
    ensures ls == originals <==> Fits(originals, base)
  {
    if Fits(originals, base) {
      forall k: nat | k < |ls|
        ensures ls[k] == originals[k]
      {
        if |ls[k]| < |originals[k]| {
          PrefixesFit(Longer(ls, originals, k), originals, base);
        }
      }
    }
  }
}
