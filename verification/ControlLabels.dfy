/**
 Fitting the labels of a control: it never fails on a valid control, and when it cuts labels although the
 canonical control would have had room for them. The same excess makes the Redis boundary drop a control.
 */
module ControlLabels {
  import opened Basics
  import opened Messages
  import opened Utf8
  import opened Canonical
  import opened Labels
  import opened ControlText

  predicate AllFit(labels: seq<Label>) {
    forall k | 0 <= k < |labels| :: LabelFits(labels[k])
  }

  /** The encoder accepts the control with these labels: it is valid, and its text is not too long. */
  predicate Encodes(w: Wire, labels: seq<Label>) {
    && ValidWire(w) && |labels| == |w.palette| && AllFit(labels)
    && EscapedSize(w, labels) <= ENVELOPE_LIMIT
  }

  /** The canonical control with these labels is accepted. */
  predicate AcceptedCanonically(w: Wire, labels: seq<Label>) {
    && ValidWire(w) && |labels| == |w.palette| && AllFit(labels)
    && CanonicalSize(w, labels) <= ENVELOPE_LIMIT
  }

  /** Labels fit, as the packer sees it, exactly when the encoder accepts the control with them. */
  lemma FitsIffEncodes(w: Wire, labels: seq<Label>)
    requires ValidWire(w) && |labels| == |w.palette|
    ensures Fits(labels, BlankSize(w)) <==> Encodes(w, labels)
  {
  }

  lemma {:induction false} ContentIsSmaller(labels: seq<Label>)
    ensures ContentTotal(labels) <= Total(labels)
  {
    if labels != [] {
      ContentIsSmaller(labels[..|labels| - 1]);
      SizesAgreeIffNothingPlain(labels[|labels| - 1]);
    }
  }

  /** What is encoded is also accepted in canonical form. */
  lemma EncodedIsAccepted(w: Wire, labels: seq<Label>)
    requires Encodes(w, labels)
    ensures AcceptedCanonically(w, labels)
  {
    ContentIsSmaller(labels);
  }

  /**
   Fits the labels of a control in place. An invalid control is refused before any label is touched; for
   a valid one this never fails, and each label becomes its fair share of what it was, which is a best fit.
   */
  method FitControlLabels(w: Wire, labels: array<Label>) returns (ok: bool)
    requires labels.Length == |w.palette| == |w.control.peers|
    modifies labels
    ensures ok == ValidWire(w)
    ensures !ok ==> labels[..] == old(labels[..])
    ensures ok ==> FairShare(labels[..], old(labels[..]), BlankSize(w)) && Encodes(w, labels[..])
    ensures ok ==> BestFit(labels[..], old(labels[..]), BlankSize(w))
  {
    if !ValidWire(w) {
      return false;
    }
    BlankSizeIsSmall(w);
    ok := FitLabels(labels, BlankSize(w));
    FitsIffEncodes(w, labels[..]);
  }

  // ---- when labels are cut ----

  /**
   Labels that are within their own limits, and for which the canonical control has room, are cut exactly
   when the encoder's text with its escapes is too long.
   */
  lemma CutIffEscapesOverflow(w: Wire, originals: seq<Label>, fitted: seq<Label>)
    requires AcceptedCanonically(w, originals) && BestFit(fitted, originals, BlankSize(w))
    ensures fitted != originals <==> EscapedSize(w, originals) > ENVELOPE_LIMIT
  {
    UnchangedIffFits(fitted, originals, BlankSize(w));
    FitsIffEncodes(w, originals);
  }

  lemma {:induction false} EscapedIsBounded(l: Label)
    ensures Escaped(l) <= 6 * |l|
  {
    if l != [] {
      EscapedIsBounded(l[..|l| - 1]);
    }
  }

  /** The label of a single peer is never cut if it is within its own limits. */
  lemma OneLabelIsNeverCut(w: Wire, l: Label, fitted: seq<Label>)
    requires ValidWire(w) && |w.palette| == 1 && LabelFits(l) && BestFit(fitted, [l], BlankSize(w))
    ensures fitted == [l]
  {
    BlankSizeIsSmall(w);
    EscapedIsBounded(l);
    assert [l][..0] == [];
    assert Total([l]) == Escaped(l);
    UnchangedIffFits(fitted, [l], BlankSize(w));
  }

  // ---- when the Redis boundary drops a control ----

  /** The control with the lease that is left. */
  function Shortened(w: Wire, ttlMs: int): Wire {
    w.(control := w.control.(ttlMs := ttlMs))
  }

  /**
   A lease control that was accepted in canonical form, and is rewritten to what is left of its lease, can
   be encoded again, and so reaches the dashboard, exactly when its text with the escapes is not too long.
   */
  lemma ReencodesIff(w: Wire, labels: seq<Label>, ttlMs: int)
    requires AcceptedCanonically(w, labels) && 1 <= ttlMs <= w.control.ttlMs
    ensures ValidWire(Shortened(w, ttlMs))
    ensures Encodes(Shortened(w, ttlMs), labels) <==> EscapedSize(Shortened(w, ttlMs), labels) <= ENVELOPE_LIMIT
  {
    var c := Shortened(w, ttlMs).control;
    assert ValidControl(c);
  }

  // ---- a control that shows both ----

  const SOME_ID := "00000000-0000-4000-8000-000000000001"

  /** A grant with two peers, and with every number as long as it can be. */
  function TwoPeers(): Wire {
    Wire(Control(SOME_ID, Grant, Some(SOME_ID), Some(SOME_ID), MAX_SAFE_INTEGER, MAX_SAFE_INTEGER, Some(SOME_ID),
        SOME_ID,
                 10000, Some(5000), [SOME_ID, SOME_ID], MAX_SAFE_INTEGER, None, None, None),
         MAX_SAFE_INTEGER, [0, 1])
  }

  /** A label of `n` less-than signs. */
  function Signs(n: nat): Label {
    seq(n, k => 0x3C)
  }

  lemma {:induction false} SignSizes(n: nat)
    ensures Escaped(Signs(n)) == 6 * n && Content(Signs(n)) == n
  {
    if n > 0 {
      SignSizes(n - 1);
      assert Signs(n)[..n - 1] == Signs(n - 1);
    }
  }

  lemma SomeIdIsUuid()
    ensures IsUuid(SOME_ID)
  {
  }

  lemma TwoPeersAreValid()
    ensures ValidWire(TwoPeers())
  {
    SomeIdIsUuid();
    var c := TwoPeers().control;
    assert ValidLeaseControl(c) && ValidControl(c);
    forall k | 0 <= k < |c.peers|
      ensures IsUuid(c.peers[k]) && 0 <= TwoPeers().palette[k] <= 5
    {
    }
  }

  lemma TwoPeersSize()
    ensures BlankSize(TwoPeers()) == 735
  {
    DigitsOfLimits();
    var w, c := TwoPeers(), TwoPeers().control;
    assert |SOME_ID| == 36;
    assert WhoSize(c) == 212 && WhichSize(c) == 165 && StopTextSize(c) == 77;
    assert Length(10000) == 5 && Length(5000) == 4;
    assert WhenSize(c, w.serverTime) == 82 && |c.peers| == 2 && Length(c.consent) == 16;
  }

  lemma TwoLabels(l: Label)
    ensures Total([l, l]) == 2 * Escaped(l) && ContentTotal([l, l]) == 2 * Content(l)
  {
    assert [l, l][..1] == [l] && [l][..0] == [];
    assert Total([l]) == Escaped(l) && ContentTotal([l]) == Content(l);
    assert Total([l, l]) == Total([l, l][..1]) + Escaped(l)
        && ContentTotal([l, l]) == ContentTotal([l, l][..1]) + Content(l);
  }

  /**
   Two labels of 32 `<` each: the canonical control has 799 bytes and is accepted, but its text with the
   escapes has 1119. So every best fit cuts them, and the Redis boundary drops the control, even with its
   whole lease left.
   */
  lemma SignsOverflow(fitted: seq<Label>)
    ensures var w, labels := TwoPeers(), [Signs(32), Signs(32)];
            && AcceptedCanonically(w, labels) && CanonicalSize(w, labels) == 799 && EscapedSize(w, labels) == 1119
            && (BestFit(fitted, labels, BlankSize(w)) ==> fitted != labels)
            && Shortened(w, 10000) == w && !Encodes(w, labels)
  {
    var w, labels := TwoPeers(), [Signs(32), Signs(32)];
    TwoPeersAreValid();
    TwoPeersSize();
    SignSizes(32);
    TwoLabels(Signs(32));
    assert |Signs(32)| == 32 && LabelFits(Signs(32));
    assert AllFit(labels) && |labels| == |w.palette|;
    if BestFit(fitted, labels, BlankSize(w)) {
      CutIffEscapesOverflow(w, labels, fitted);
    }
  }
}
