/**
 The text that Go's encoder writes for a ride-group control, field by field: how long it is, how long its
 canonical form is, and that a valid control always has room for its peers without labels.
 */
module ControlText {
  import opened Basics
  import opened Messages
  import opened Utf8
  import opened Canonical
  import opened CanonicalProofs
  import opened Labels

  // ---- a control with everything that is sent ----

  /** `control.peers` are the peers' identifiers, `palette` their colours. */
  datatype Wire = Wire(control: Control, serverTime: int, palette: seq<int>)

  predicate HexOrDash(s: string, k: nat)
    requires k < |s|
  {
    if k == 8 || k == 13 || k == 18 || k == 23 then s[k] == '-' else '0' <= s[k] <= '9' || 'a' <= s[k] <= 'f'
  }

  predicate IsUuid(s: string) {
    |s| == 36 && forall k: nat | k < |s| :: HexOrDash(s, k)
  }

  predicate IsUuidIfAny(o: Option<Id>) {
    o.Some? ==> IsUuid(o.value)
  }

  /** What the validator demands, labels aside. */
  predicate ValidWire(w: Wire) {
    var c := w.control;
    && ValidControl(c) && SafePositive(w.serverTime)
    && IsUuid(c.nonce) && IsUuid(c.challenge)
    && IsUuidIfAny(c.session) && IsUuidIfAny(c.member) && IsUuidIfAny(c.stream) && IsUuidIfAny(c.stopOp)
    && |w.palette| == |c.peers| && forall k | 0 <= k < |c.peers| :: IsUuid(c.peers[k]) && 0 <= w.palette[k] <= 5
  }

  // ---- its text ----

  function Ascii(s: string): (b: seq<byte>)
    ensures |b| == |s|
  {
    seq(|s|, k requires 0 <= k < |s| => if s[k] < 128 as char then s[k] as int else 0x3F)
  }

  function Decimal(n: nat): (b: seq<byte>)
    ensures |b| == Digits(n)
  {
    if n < 10 then [0x30 + n] else Decimal(n / 10) + [0x30 + n % 10]
  }

  function Digits(n: nat): nat {
    if n < 10 then 1 else Digits(n / 10) + 1
  }

  function Length(n: int): nat {
    Digits(if n < 0 then 0 else n)
  }

  /** A number that is never negative in a valid control. */
  function Number(n: int): (b: seq<byte>)
    ensures |b| == Length(n)
  {
    Decimal(if n < 0 then 0 else n)
  }

  function Str(contents: seq<byte>): seq<byte> {
    [QUOTE] + contents + [QUOTE]
  }

  function Text(s: string): seq<byte> {
    Str(Ascii(s))
  }

  function Null(): seq<byte> {
    Ascii("null")
  }

  function TextOrNull(o: Option<string>): seq<byte> {
    if o.Some? then Text(o.value) else Null()
  }

  function NumberOrNull(o: Option<int>): seq<byte> {
    if o.Some? then Number(o.value) else Null()
  }

  const COMMA: byte := 0x2C
  const COLON: byte := 0x3A

  /** `"name":value`, after `before`. */
  function Field(before: byte, name: string, value: seq<byte>): seq<byte> {
    [before] + Text(name) + [COLON] + value
  }

  function ActionName(a: Action): string {
    match a
    case Grant => "grant"
    case Renew => "renew"
    case Clear => "clear"
    case Status => "status"
  }

  function ResultName(r: StopResult): string {
    match r
    case Committed => "committed"
    case NotFound => "not_found"
    case Superseded => "superseded"
    case Expired => "expired"
    case Unconfirmed => "unconfirmed"
    case Error => "error"
  }

  function ResultNameIfAny(r: Option<StopResult>): Option<string> {
    if r.Some? then Some(ResultName(r.value)) else None
  }

  const BRACE: byte := 0x7B
  const BRACKET: byte := 0x5B

  /** One peer, with the bytes of its label inside their quotes. */
  function Peer(before: byte, id: Id, shown: seq<byte>, palette: int): seq<byte> {
    [before] + Field(BRACE, "peer_id", Text(id)) + Field(COMMA, "label", Str(shown)) +
    Field(COMMA, "palette_index", Number(palette)) + [0x7D]
  }

  function PeersText(ids: seq<Id>, labels: seq<seq<byte>>, palette: seq<int>): seq<byte>
    requires |ids| == |labels| == |palette|
  {
    if ids == [] then []
    else
      var n := |ids| - 1;
      PeersText(ids[..n], labels[..n], palette[..n]) +
      Peer(if n == 0 then BRACKET else COMMA, ids[n], labels[n], palette[n])
  }

  /** Who the control is for ... */
  function Who(w: Wire): seq<byte> {
    var c := w.control;
    Field(BRACE, "v", Number(2)) + Field(COMMA, "type", Text("ride_group_control")) +
    Field(COMMA, "connection_nonce", Text(c.nonce)) + Field(COMMA, "action", Text(ActionName(c.action))) +
    Field(COMMA, "session_id", TextOrNull(c.session)) + Field(COMMA, "member_id", TextOrNull(c.member))
  }

  /** ... which authority it speaks of ... */
  function Which(w: Wire): seq<byte> {
    var c := w.control;
    Field(COMMA, "revision", Number(c.revision)) + Field(COMMA, "transport_epoch", Number(c.epoch)) +
    Field(COMMA, "stream_id", TextOrNull(c.stream)) + Field(COMMA, "challenge", Text(c.challenge))
  }

  /** ... and for how long. */
  function When(w: Wire): seq<byte> {
    var c := w.control;
    Field(COMMA, "server_time_ms", Number(w.serverTime)) + Field(COMMA, "lease_ttl_ms", Number(c.ttlMs)) +
    Field(COMMA, "cadence_ms", NumberOrNull(c.cadenceMs)) + Field(COMMA, "peers", [])
  }

  function Head(w: Wire): seq<byte> {
    Who(w) + Which(w) + When(w)
  }

  function Tail(w: Wire): seq<byte> {
    var c := w.control;
    Ascii(if c.peers == [] then "[]" else "]") + Field(COMMA, "consent_generation", Number(c.consent)) + Stop(w)
  }

  function Stop(w: Wire): seq<byte> {
    var c := w.control;
    Field(COMMA, "stop_operation_id", TextOrNull(c.stopOp)) +
    Field(COMMA, "stop_result", TextOrNull(ResultNameIfAny(c.stopResult))) +
    Field(COMMA, "stop_expected_generation", NumberOrNull(c.stopExpected)) + [0x7D]
  }

  /** The whole text, `labels` being the bytes inside each label's quotes. */
  function WireText(w: Wire, labels: seq<seq<byte>>): seq<byte>
    requires |w.control.peers| == |labels| == |w.palette|
  {
    Head(w) + PeersText(w.control.peers, labels, w.palette) + Tail(w)
  }

  function Blanks(n: nat): seq<seq<byte>> {
    seq(n, k => [])
  }

  function Bytes(labels: seq<seq<byte>>): nat {
    if labels == [] then 0 else Bytes(labels[..|labels| - 1]) + |labels[|labels| - 1]|
  }

  // ---- sizes add up ----

  lemma PeerAddsUp(before: byte, id: Id, shown: seq<byte>, palette: int)
    ensures |Peer(before, id, shown, palette)| == |Peer(before, id, [], palette)| + |shown|
  {
  }

  lemma {:induction false} PeersAddUp(ids: seq<Id>, labels: seq<seq<byte>>, palette: seq<int>)
    requires |ids| == |labels| == |palette|
    ensures |PeersText(ids, labels, palette)| == |PeersText(ids, Blanks(|ids|), palette)| + Bytes(labels)
  {
    if ids != [] {
      var n := |ids| - 1;
      PeersAddUp(ids[..n], labels[..n], palette[..n]);
      PeersLast(ids, labels, palette);
      PeersLast(ids, Blanks(|ids|), palette);
      assert Blanks(|ids|)[..n] == Blanks(n);
      PeerAddsUp(if n == 0 then BRACKET else COMMA, ids[n], labels[n], palette[n]);
    }
  }

  lemma PeersLast(ids: seq<Id>, labels: seq<seq<byte>>, palette: seq<int>)
    requires |ids| == |labels| == |palette| > 0
    ensures var n := |ids| - 1;
            |PeersText(ids, labels, palette)| == |PeersText(ids[..n], labels[..n], palette[..n])|
                                                 + |Peer(if n == 0 then BRACKET else COMMA, ids[n], labels[n],
                                                     palette[n])|
  {
  }

  lemma ThreeParts(a: seq<byte>, b: seq<byte>, c: seq<byte>)
    ensures |a + b + c| == |a| + |b| + |c|
  {
  }

  lemma WireParts(w: Wire, labels: seq<seq<byte>>)
    requires |w.control.peers| == |labels| == |w.palette|
    ensures |WireText(w, labels)| == |Head(w)| + |PeersText(w.control.peers, labels, w.palette)| + |Tail(w)|
  {
    ThreeParts(Head(w), PeersText(w.control.peers, labels, w.palette), Tail(w));
  }

  // ---- how long a valid control can be ----

  lemma {:induction false} FewDigits(n: nat, m: nat)
    requires n <= m
    ensures Digits(n) <= Digits(m)
  {
    if n >= 10 {
      FewDigits(n / 10, m / 10);
    }
  }

  lemma ThreeMoreDigits(n: nat)
    requires n >= 1000
    ensures Digits(n) == Digits(n / 1000) + 3
  {
    assert Digits(n) == Digits(n / 10) + 1 && Digits(n / 10) == Digits(n / 10 / 10) + 1;
    assert Digits(n / 10 / 10) == Digits(n / 10 / 10 / 10) + 1;
    assert n / 10 / 10 / 10 == n / 1000;
  }

  lemma DigitsOfLimits()
    ensures Digits(MAX_SAFE_INTEGER) == 16 && Digits(10000) == 5 && Digits(5000) == 4
  {
    ThreeMoreDigits(9_007_199_254_740_991);
    ThreeMoreDigits(9_007_199_254_740);
    ThreeMoreDigits(9_007_199_254);
    ThreeMoreDigits(9_007_199);
    ThreeMoreDigits(9_007);
    ThreeMoreDigits(10000);
    ThreeMoreDigits(5000);
  }

  lemma NumberSize(n: int, limit: nat)
    requires 0 <= n <= limit
    ensures Length(n) <= Digits(limit)
  {
    FewDigits(n, limit);
  }

  lemma {:induction false} BlankPeersSize(ids: seq<Id>, palette: seq<int>)
    requires |ids| == |palette| && forall k | 0 <= k < |ids| :: |ids[k]| == 36 && 0 <= palette[k] <= 5
    ensures |PeersText(ids, Blanks(|ids|), palette)| == 80 * |ids|
  {
    if ids != [] {
      var n := |ids| - 1;
      BlankPeersSize(ids[..n], palette[..n]);
      assert Blanks(|ids|)[..n] == Blanks(n);
      PeerSize(if n == 0 then BRACKET else COMMA, ids[n], palette[n]);
    }
  }

  lemma PeerSize(before: byte, id: Id, palette: int)
    requires |id| == 36 && 0 <= palette <= 5
    ensures |Peer(before, id, [], palette)| == 80
  {
  }

  lemma FieldSize(before: byte, name: string, value: seq<byte>)
    ensures |Field(before, name, value)| == |name| + 4 + |value|
  {
  }

  function TextSize(o: Option<string>): nat {
    if o.Some? then |o.value| + 2 else 4
  }

  function NumberSizeIfAny(o: Option<int>): nat {
    if o.Some? then Length(o.value) else 4
  }

  function WhoSize(c: Control): nat {
    95 + |c.nonce| + |ActionName(c.action)| + TextSize(c.session) + TextSize(c.member)
  }

  function WhichSize(c: Control): nat {
    59 + Length(c.revision) + Length(c.epoch) + TextSize(c.stream) + |c.challenge|
  }

  function WhenSize(c: Control, serverTime: int): nat {
    57 + Length(serverTime) + Length(c.ttlMs) + NumberSizeIfAny(c.cadenceMs)
  }

  function StopTextSize(c: Control): nat {
    65 + TextSize(c.stopOp) + TextSize(ResultNameIfAny(c.stopResult)) + NumberSizeIfAny(c.stopExpected)
  }

  /** The size of a valid control without labels. */
  function BlankSize(w: Wire): nat {
    var c := w.control;
    WhoSize(c) + WhichSize(c) + WhenSize(c, w.serverTime) + 80 * |c.peers| +
    (if c.peers == [] then 24 else 23) + Length(c.consent) + StopTextSize(c)
  }

  lemma WhoHasSize(w: Wire)
    ensures |Who(w)| == WhoSize(w.control)
  {
  }

  lemma WhichHasSize(w: Wire)
    ensures |Which(w)| == WhichSize(w.control)
  {
  }

  lemma WhenHasSize(w: Wire)
    ensures |When(w)| == WhenSize(w.control, w.serverTime)
  {
  }

  lemma StopHasSize(w: Wire)
    ensures |Stop(w)| == StopTextSize(w.control)
  {
  }

  lemma HeadSize(w: Wire)
    ensures |Head(w)| == |Who(w)| + |Which(w)| + |When(w)|
    ensures |Tail(w)| == (if w.control.peers == [] then 24 else 23) + Length(w.control.consent) + |Stop(w)|
  {
  }

  /** The text of a valid control has its blank size and the bytes of its labels. */
  lemma SizesAddUp(w: Wire, labels: seq<seq<byte>>)
    requires ValidWire(w) && |labels| == |w.palette|
    ensures |WireText(w, labels)| == BlankSize(w) + Bytes(labels)
  {
    WireParts(w, labels);
    PeersAddUp(w.control.peers, labels, w.palette);
    BlankPeersSize(w.control.peers, w.palette);
    HeadSize(w);
    WhoHasSize(w);
    WhichHasSize(w);
    WhenHasSize(w);
    StopHasSize(w);
  }

  /** Numbers are in range, and identifiers have 36 characters. */
  lemma PartsOfValid(w: Wire)
    requires ValidWire(w)
    ensures var c := w.control;
            && |c.nonce| == 36 && |c.challenge| == 36 && TextSize(c.session) <= 38 && TextSize(c.member) <= 38
            && TextSize(c.stream) <= 38 && TextSize(c.stopOp) <= 38 && Length(w.serverTime) <= 16
            && Length(c.consent) <= 16 && NumberSizeIfAny(c.stopExpected) <= 16
  {
    var c := w.control;
    DigitsOfLimits();
    NumberSize(w.serverTime, MAX_SAFE_INTEGER);
    NumberSize(c.consent, MAX_SAFE_INTEGER);
    if c.stopExpected.Some? {
      NumberSize(c.stopExpected.value, MAX_SAFE_INTEGER);
    }
  }

  lemma BoundSizes(c: Control)
    requires ValidControl(c) && !c.action.Status?
    ensures Length(c.revision) <= 16 && Length(c.epoch) <= 16
    ensures Length(c.ttlMs) <= (if c.action.Clear? then 1 else 5) && NumberSizeIfAny(c.cadenceMs) <= 4
    ensures TextSize(c.stopOp) == TextSize(ResultNameIfAny(c.stopResult)) == NumberSizeIfAny(c.stopExpected) == 4
    ensures |ActionName(c.action)| == 5
  {
    DigitsOfLimits();
    NumberSize(c.revision, MAX_SAFE_INTEGER);
    NumberSize(c.epoch, MAX_SAFE_INTEGER);
    if !c.action.Clear? {
      NumberSize(c.ttlMs, 10000);
      NumberSize(c.cadenceMs.value, 5000);
    }
  }

  lemma StatusSizes(c: Control)
    requires ValidControl(c) && c.action.Status?
    ensures Length(c.revision) == Length(c.epoch) == Length(c.ttlMs) == 1 && NumberSizeIfAny(c.cadenceMs) == 4
    ensures TextSize(c.session) == TextSize(c.member) == TextSize(c.stream) == 4
    ensures TextSize(ResultNameIfAny(c.stopResult)) <= 13 && |ActionName(c.action)| == 6 && c.peers == []
  {
  }

  /** Without labels a valid control has at most 576 bytes, or 575 and 80 for each peer if there are any. */
  lemma BlankSizeIsSmall(w: Wire)
    requires ValidWire(w)
    ensures BlankSize(w) <= (if w.control.peers == [] then 576 else 575 + 80 * |w.control.peers|)
    ensures BlankSize(w) <= 975
  {
    PartsOfValid(w);
    if w.control.action.Status? {
      StatusSizes(w.control);
    } else {
      BoundSizes(w.control);
    }
  }

  // ---- the canonical form of the text ----

  /** Outside strings, canonicalising `f` gives `g` and ends outside strings again. */
  ghost predicate Settles(f: seq<byte>, g: seq<byte>) {
    forall rest :: Canon(f + rest, false) == Before(g, Canon(rest, false))
  }

  /** The same inside a string. */
  ghost predicate SettlesInside(f: seq<byte>, g: seq<byte>) {
    forall rest :: Canon(f + rest, true) == Before(g, Canon(rest, true))
  }

  lemma Compose(f: seq<byte>, f': seq<byte>, g: seq<byte>, g': seq<byte>)
    requires Settles(f, f') && Settles(g, g')
    ensures Settles(f + g, f' + g')
  {
    forall rest
      ensures Canon(f + g + rest, false) == Before(f' + g', Canon(rest, false))
    {
      Associates(f, g, rest);
      assert Canon(f + (g + rest), false) == Before(f', Canon(g + rest, false));
      BeforeTwice(f', g', Canon(rest, false));
    }
  }

  predicate Unquoted(f: seq<byte>) {
    forall k | 0 <= k < |f| :: f[k] != QUOTE
  }

  lemma {:induction false} UnquotedSettlesBefore(f: seq<byte>, rest: seq<byte>)
    requires Unquoted(f)
    ensures Canon(f + rest, false) == Before(f, Canon(rest, false))
    decreases |f|
  {
    if f == [] {
      assert f + rest == rest;
      BeforeNothing(Canon(rest, false));
    } else {
      var more := f[1..];
      UnquotedSettlesBefore(more, rest);
      AfterOutside(f[0], more + rest);
      assert f == [f[0]] + more && f + rest == [f[0]] + (more + rest);
      BeforeTwice([f[0]], more, Canon(rest, false));
    }
  }

  lemma UnquotedSettles(f: seq<byte>)
    requires Unquoted(f)
    ensures Settles(f, f)
  {
    forall rest
      ensures Canon(f + rest, false) == Before(f, Canon(rest, false))
    {
      UnquotedSettlesBefore(f, rest);
    }
  }

  lemma StrSettlesBefore(f: seq<byte>, g: seq<byte>, rest: seq<byte>)
    requires Canon(f + ([QUOTE] + rest), true) == Before(g, Canon([QUOTE] + rest, true))
    ensures Canon(Str(f) + rest, false) == Before(Str(g), Canon(rest, false))
  {
    AfterOutside(QUOTE, f + ([QUOTE] + rest));
    AfterQuote(rest);
    StrThen(f, rest);
    BeforeTwice(g, [QUOTE], Canon(rest, false));
    BeforeTwice([QUOTE], g + [QUOTE], Canon(rest, false));
    Associates([QUOTE], g, [QUOTE]);
  }

  lemma StrThen(f: seq<byte>, rest: seq<byte>)
    ensures Str(f) + rest == [QUOTE] + (f + ([QUOTE] + rest))
  {
  }

  lemma StrSettles(f: seq<byte>, g: seq<byte>)
    requires SettlesInside(f, g)
    ensures Settles(Str(f), Str(g))
  {
    forall rest
      ensures Canon(Str(f) + rest, false) == Before(Str(g), Canon(rest, false))
    {
      var closing := [QUOTE] + rest;
      assert Canon(f + closing, true) == Before(g, Canon(closing, true));
      StrSettlesBefore(f, g, rest);
    }
  }

  /** A text of literal characters. */
  predicate IsName(s: string) {
    forall k | 0 <= k < |s| :: ' ' <= s[k] <= '~' && s[k] != '\"' && s[k] != '\\'
  }

  lemma TextSettles(s: string)
    requires IsName(s)
    ensures Settles(Text(s), Text(s))
  {
    var f := Ascii(s);
    forall k | 0 <= k < |f|
      ensures Literal(f[k])
    {
      assert ' ' <= s[k] <= '~';
    }
    forall rest
      ensures Canon(f + rest, true) == Before(f, Canon(rest, true))
    {
      AfterLiterals(f, rest);
    }
    StrSettles(f, f);
  }

  lemma UuidIsName(s: string)
    requires IsUuid(s)
    ensures IsName(s)
  {
    forall k: nat | k < |s|
      ensures ' ' <= s[k] <= '~' && s[k] != '\"' && s[k] != '\\'
    {
      assert HexOrDash(s, k);
    }
  }

  lemma FieldSettles(before: byte, name: string, f: seq<byte>, g: seq<byte>)
    requires before != QUOTE && IsName(name) && Settles(f, g)
    ensures Settles(Field(before, name, f), Field(before, name, g))
  {
    UnquotedSettles([before]);
    TextSettles(name);
    UnquotedSettles([COLON]);
    Compose([before], [before], Text(name), Text(name));
    Compose([before] + Text(name), [before] + Text(name), [COLON], [COLON]);
    Compose([before] + Text(name) + [COLON], [before] + Text(name) + [COLON], f, g);
  }

  lemma {:induction false} DecimalIsUnquoted(n: nat)
    ensures Unquoted(Decimal(n))
  {
    if n >= 10 {
      DecimalIsUnquoted(n / 10);
    }
  }

  lemma NumberSettles(n: int)
    ensures Settles(Number(n), Number(n))
  {
    DecimalIsUnquoted(if n < 0 then 0 else n);
    UnquotedSettles(Number(n));
  }

  lemma NumberFieldSettles(before: byte, name: string, n: int)
    requires before != QUOTE && IsName(name)
    ensures Settles(Field(before, name, Number(n)), Field(before, name, Number(n)))
  {
    NumberSettles(n);
    FieldSettles(before, name, Number(n), Number(n));
  }

  lemma NullSettles()
    ensures Settles(Null(), Null())
  {
    UnquotedSettles(Null());
  }

  lemma TextFieldSettles(before: byte, name: string, o: Option<string>)
    requires before != QUOTE && IsName(name) && (o.Some? ==> IsName(o.value))
    ensures Settles(Field(before, name, TextOrNull(o)), Field(before, name, TextOrNull(o)))
  {
    NullSettles();
    if o.Some? {
      TextSettles(o.value);
    }
    FieldSettles(before, name, TextOrNull(o), TextOrNull(o));
  }

  lemma NumberOrNullFieldSettles(name: string, o: Option<int>)
    requires IsName(name)
    ensures Settles(Field(COMMA, name, NumberOrNull(o)), Field(COMMA, name, NumberOrNull(o)))
  {
    NullSettles();
    if o.Some? {
      NumberSettles(o.value);
    }
    FieldSettles(COMMA, name, NumberOrNull(o), NumberOrNull(o));
  }

  // ---- part by part ----

  lemma NamesOfWho()
    ensures IsName("v") && IsName("type") && IsName("ride_group_control") && IsName("connection_nonce")
    ensures IsName("action") && IsName("session_id") && IsName("member_id")
  {
  }

  lemma NamesOfRest()
    ensures IsName("revision") && IsName("transport_epoch") && IsName("stream_id") && IsName("challenge")
    ensures IsName("server_time_ms") && IsName("lease_ttl_ms") && IsName("cadence_ms") && IsName("peers")
  {
  }

  lemma NamesOfTail()
    ensures IsName("consent_generation") && IsName("stop_operation_id") && IsName("stop_result")
    ensures IsName("stop_expected_generation") && IsName("peer_id") && IsName("label") && IsName("palette_index")
  {
  }

  lemma NamesOfValues(a: Action, r: StopResult)
    ensures IsName(ActionName(a)) && IsName(ResultName(r))
  {
  }

  lemma WhoSettles(w: Wire)
    requires ValidWire(w)
    ensures Settles(Who(w), Who(w))
  {
    var c := w.control;
    NamesOfWho();
    NamesOfValues(c.action, Error);
    UuidIsName(c.nonce);
    OptionIsName(c.session);
    OptionIsName(c.member);
    NumberFieldSettles(BRACE, "v", 2);
    TextFieldSettles(COMMA, "type", Some("ride_group_control"));
    TextFieldSettles(COMMA, "connection_nonce", Some(c.nonce));
    TextFieldSettles(COMMA, "action", Some(ActionName(c.action)));
    TextFieldSettles(COMMA, "session_id", c.session);
    TextFieldSettles(COMMA, "member_id", c.member);
    ComposeFour(Field(BRACE, "v", Number(2)), Field(COMMA, "type", Text("ride_group_control")),
                Field(COMMA, "connection_nonce", Text(c.nonce)), Field(COMMA, "action", Text(ActionName(c.action))));
    ComposeThree(Field(BRACE, "v", Number(2)) + Field(COMMA, "type", Text("ride_group_control")) +
                 Field(COMMA, "connection_nonce", Text(c.nonce)) + Field(COMMA, "action", Text(ActionName(c.action))),
                 Field(COMMA, "session_id", TextOrNull(c.session)), Field(COMMA, "member_id", TextOrNull(c.member)));
  }

  lemma OptionIsName(o: Option<Id>)
    requires IsUuidIfAny(o)
    ensures o.Some? ==> IsName(o.value)
  {
    if o.Some? {
      UuidIsName(o.value);
    }
  }

  lemma ComposeThree(a: seq<byte>, b: seq<byte>, c: seq<byte>)
    requires Settles(a, a) && Settles(b, b) && Settles(c, c)
    ensures Settles(a + b + c, a + b + c)
  {
    Compose(a, a, b, b);
    Compose(a + b, a + b, c, c);
  }

  lemma ComposeFour(a: seq<byte>, b: seq<byte>, c: seq<byte>, d: seq<byte>)
    requires Settles(a, a) && Settles(b, b) && Settles(c, c) && Settles(d, d)
    ensures Settles(a + b + c + d, a + b + c + d)
  {
    ComposeThree(a, b, c);
    Compose(a + b + c, a + b + c, d, d);
  }

  lemma WhichSettles(w: Wire)
    requires ValidWire(w)
    ensures Settles(Which(w), Which(w))
  {
    var c := w.control;
    NamesOfRest();
    OptionIsName(c.stream);
    UuidIsName(c.challenge);
    NumberFieldSettles(COMMA, "revision", c.revision);
    NumberFieldSettles(COMMA, "transport_epoch", c.epoch);
    TextFieldSettles(COMMA, "stream_id", c.stream);
    TextFieldSettles(COMMA, "challenge", Some(c.challenge));
    ComposeFour(Field(COMMA, "revision", Number(c.revision)), Field(COMMA, "transport_epoch", Number(c.epoch)),
                Field(COMMA, "stream_id", TextOrNull(c.stream)), Field(COMMA, "challenge", Text(c.challenge)));
  }

  lemma WhenSettles(w: Wire)
    ensures Settles(When(w), When(w))
  {
    var c := w.control;
    NamesOfRest();
    NumberFieldSettles(COMMA, "server_time_ms", w.serverTime);
    NumberFieldSettles(COMMA, "lease_ttl_ms", c.ttlMs);
    NumberOrNullFieldSettles("cadence_ms", c.cadenceMs);
    UnquotedSettles([]);
    FieldSettles(COMMA, "peers", [], []);
    ComposeFour(Field(COMMA, "server_time_ms", Number(w.serverTime)), Field(COMMA, "lease_ttl_ms", Number(c.ttlMs)),
                Field(COMMA, "cadence_ms", NumberOrNull(c.cadenceMs)), Field(COMMA, "peers", []));
  }

  lemma StopSettles(w: Wire)
    requires ValidWire(w)
    ensures Settles(Stop(w), Stop(w))
  {
    var c := w.control;
    NamesOfTail();
    OptionIsName(c.stopOp);
    if c.stopResult.Some? {
      NamesOfValues(c.action, c.stopResult.value);
    }
    TextFieldSettles(COMMA, "stop_operation_id", c.stopOp);
    TextFieldSettles(COMMA, "stop_result", ResultNameIfAny(c.stopResult));
    NumberOrNullFieldSettles("stop_expected_generation", c.stopExpected);
    UnquotedSettles([0x7D]);
    ComposeFour(Field(COMMA, "stop_operation_id", TextOrNull(c.stopOp)),
                Field(COMMA, "stop_result", TextOrNull(ResultNameIfAny(c.stopResult))),
                Field(COMMA, "stop_expected_generation", NumberOrNull(c.stopExpected)), [0x7D]);
  }

  lemma HeadSettles(w: Wire)
    requires ValidWire(w)
    ensures Settles(Head(w), Head(w))
  {
    WhoSettles(w);
    WhichSettles(w);
    WhenSettles(w);
    ComposeThree(Who(w), Which(w), When(w));
  }

  lemma TailSettles(w: Wire)
    requires ValidWire(w)
    ensures Settles(Tail(w), Tail(w))
  {
    var closing := Ascii(if w.control.peers == [] then "[]" else "]");
    UnquotedSettles(closing);
    NamesOfTail();
    NumberFieldSettles(COMMA, "consent_generation", w.control.consent);
    StopSettles(w);
    ComposeThree(closing, Field(COMMA, "consent_generation", Number(w.control.consent)), Stop(w));
  }

  // ---- with labels ----

  /** The labels as the encoder writes them, and as they are in the canonical form. */
  function Written(labels: seq<Label>): (r: seq<seq<byte>>)
    ensures |r| == |labels|
  {
    seq(|labels|, k requires 0 <= k < |labels| => WriteAll(labels[k]))
  }

  function Settled(labels: seq<Label>): (r: seq<seq<byte>>)
    ensures |r| == |labels|
  {
    seq(|labels|, k requires 0 <= k < |labels| => SettleAll(labels[k]))
  }

  lemma LabelFieldSettles(l: Label)
    ensures Settles(Field(COMMA, "label", Str(WriteAll(l))), Field(COMMA, "label", Str(SettleAll(l))))
  {
    forall rest
      ensures Canon(WriteAll(l) + rest, true) == Before(SettleAll(l), Canon(rest, true))
    {
      LabelIsSettled(l, rest);
    }
    StrSettles(WriteAll(l), SettleAll(l));
    NamesOfTail();
    FieldSettles(COMMA, "label", Str(WriteAll(l)), Str(SettleAll(l)));
  }

  lemma PeerSettles(before: byte, id: Id, l: Label, palette: int)
    requires before != QUOTE && IsUuid(id)
    ensures Settles(Peer(before, id, WriteAll(l), palette), Peer(before, id, SettleAll(l), palette))
  {
    NamesOfTail();
    UuidIsName(id);
    TextFieldSettles(BRACE, "peer_id", Some(id));
    LabelFieldSettles(l);
    NumberFieldSettles(COMMA, "palette_index", palette);
    UnquotedSettles([before]);
    UnquotedSettles([0x7D]);
    ComposeLabel([before], Field(BRACE, "peer_id", Text(id)), Field(COMMA, "label", Str(WriteAll(l))),
                 Field(COMMA, "label", Str(SettleAll(l))), Field(COMMA, "palette_index", Number(palette)), [0x7D]);
  }

  lemma ComposeLabel(a: seq<byte>, b: seq<byte>, f: seq<byte>, g: seq<byte>, c: seq<byte>, d: seq<byte>)
    requires Settles(a, a) && Settles(b, b) && Settles(f, g) && Settles(c, c) && Settles(d, d)
    ensures Settles(a + b + f + c + d, a + b + g + c + d)
  {
    Compose(a, a, b, b);
    Compose(a + b, a + b, f, g);
    Compose(a + b + f, a + b + g, c, c);
    Compose(a + b + f + c, a + b + g + c, d, d);
  }

  lemma {:induction false} PeersSettle(ids: seq<Id>, labels: seq<Label>, palette: seq<int>)
    requires |ids| == |labels| == |palette| && forall k | 0 <= k < |ids| :: IsUuid(ids[k])
    ensures Settles(PeersText(ids, Written(labels), palette), PeersText(ids, Settled(labels), palette))
  {
    if ids == [] {
      UnquotedSettles([]);
    } else {
      var n := |ids| - 1;
      var before := if n == 0 then BRACKET else COMMA;
      PeersSettle(ids[..n], labels[..n], palette[..n]);
      assert Written(labels)[..n] == Written(labels[..n]) && Settled(labels)[..n] == Settled(labels[..n]);
      PeerSettles(before, ids[n], labels[n], palette[n]);
      Compose(PeersText(ids[..n], Written(labels[..n]), palette[..n]),
          PeersText(ids[..n], Settled(labels[..n]), palette[..n]),
              Peer(before, ids[n], WriteAll(labels[n]), palette[n]),
                  Peer(before, ids[n], SettleAll(labels[n]), palette[n]));
    }
  }

  /** Canonicalising the encoder's text of a valid control settles its labels and leaves the rest alone. */
  lemma CanonicalText(w: Wire, labels: seq<Label>)
    requires ValidWire(w) && |labels| == |w.palette|
    ensures Canon(WireText(w, Written(labels)), false) == Some(WireText(w, Settled(labels)))
  {
    var f, g := PeersText(w.control.peers, Written(labels), w.palette),
        PeersText(w.control.peers, Settled(labels), w.palette);
    HeadSettles(w);
    PeersSettle(w.control.peers, labels, w.palette);
    TailSettles(w);
    ComposeMiddle(Head(w), f, g, Tail(w));
    WholeSettles(Head(w) + f + Tail(w), Head(w) + g + Tail(w));
  }

  lemma ComposeMiddle(a: seq<byte>, f: seq<byte>, g: seq<byte>, c: seq<byte>)
    requires Settles(a, a) && Settles(f, g) && Settles(c, c)
    ensures Settles(a + f + c, a + g + c)
  {
    Compose(a, a, f, g);
    Compose(a + f, a + g, c, c);
  }

  lemma WholeSettles(f: seq<byte>, g: seq<byte>)
    requires Settles(f, g)
    ensures Canon(f, false) == Some(g)
  {
    assert Canon(f + [], false) == Before(g, Canon([], false));
    assert f + [] == f && g + [] == g;
  }

  // ---- the two sizes ----

  function ContentTotal(labels: seq<Label>): nat {
    if labels == [] then 0 else ContentTotal(labels[..|labels| - 1]) + Content(labels[|labels| - 1])
  }

  lemma {:induction false} LabelBytes(labels: seq<Label>)
    ensures Bytes(Written(labels)) == Total(labels) && Bytes(Settled(labels)) == ContentTotal(labels)
  {
    if labels != [] {
      var n := |labels| - 1;
      LabelBytes(labels[..n]);
      LabelSizes(labels[n]);
      assert Written(labels)[..n] == Written(labels[..n]) && Settled(labels)[..n] == Settled(labels[..n]);
    }
  }

  /** The size of the encoder's text: the escaped bytes of the labels on top of the rest ... */
  function EscapedSize(w: Wire, labels: seq<Label>): nat {
    BlankSize(w) + Total(labels)
  }

  /** ... and of its canonical form: their content on top of the rest. */
  function CanonicalSize(w: Wire, labels: seq<Label>): nat {
    BlankSize(w) + ContentTotal(labels)
  }

  lemma EscapedControlSize(w: Wire, labels: seq<Label>)
    requires ValidWire(w) && |labels| == |w.palette|
    ensures |WireText(w, Written(labels))| == EscapedSize(w, labels)
  {
    LabelBytes(labels);
    SizesAddUp(w, Written(labels));
  }

  lemma CanonicalControlSize(w: Wire, labels: seq<Label>)
    requires ValidWire(w) && |labels| == |w.palette|
    ensures |WireText(w, Settled(labels))| == CanonicalSize(w, labels)
  {
    LabelBytes(labels);
    SizesAddUp(w, Settled(labels));
  }
}
