/**
 Ride-group v2 messages as already decoded values, with the rules that the decoders enforce.
 Fields that no decision reads (type tags, coordinates, labels, server times) are dropped.
 */
module Messages {
  import opened Basics

  // ---- dashboard (Redis) to adapter ----

  datatype Activity = Activity(
    boot: Id, sequence: int, active: bool, session: Option<Id>, member: Option<Id>, challenge: Id)

  predicate ValidActivity(a: Activity) {
    SafePositive(a.sequence) && (a.session.Some? <==> a.member.Some?)
  }

  datatype Phase = Idle | Preparing | Prepared | Confirmed | Uncertain

  /** A snapshot of the dashboard's stop journal. */
  datatype LocalStop = LocalStop(
    op: Option<Id>, revision: int, phase: Phase, blocked: bool,
    expected: Option<int>, committed: Option<int>, challenge: Id)

  predicate ValidGeneration(g: Option<int>) {
    g.Some? ==> SafeNonnegative(g.value)
  }

  predicate Advancing(expected: Option<int>, committed: Option<int>) {
    expected.Some? && committed.Some? && committed.value > expected.value
  }

  predicate ValidLocalStop(s: LocalStop) {
    && SafeNonnegative(s.revision) && ValidGeneration(s.expected) && ValidGeneration(s.committed)
    && match s.phase
       case Idle => !s.blocked && s.op.None? && s.expected.None? && s.committed.None? && s.revision != 0
       case Preparing => s.blocked && s.op.Some? && s.expected.None? && s.committed.None? && s.revision != 0
       case Prepared => s.blocked && s.op.Some? && s.expected.Some? && s.committed.None? && s.revision != 0
       case Confirmed => s.blocked && s.op.Some? && Advancing(s.expected, s.committed) && s.revision != 0
       case Uncertain =>
         && s.blocked
         && (s.revision == 0 ==> s.op.None? && s.expected.None? && s.committed.None?)
         && (s.revision > 0 && s.committed.Some? ==> Advancing(s.expected, s.committed))
  }

  // ---- server to adapter ----

  datatype Action = Grant | Renew | Clear | Status
  datatype StopResult = Committed | NotFound | Superseded | Expired | Unconfirmed | Error

  datatype Control = Control(
    nonce: Id, action: Action, session: Option<Id>, member: Option<Id>, revision: int, epoch: int,
    stream: Option<Id>, challenge: Id, ttlMs: int, cadenceMs: Option<int>, peers: seq<Id>,
    consent: int, stopOp: Option<Id>, stopResult: Option<StopResult>, stopExpected: Option<int>)

  predicate Bound(c: Control) {
    c.session.Some? && c.member.Some? && c.stream.Some? && SafePositive(c.revision) && SafePositive(c.epoch)
  }

  predicate NoStop(c: Control) {
    c.stopOp.None? && c.stopResult.None? && c.stopExpected.None?
  }

  predicate ValidControl(c: Control) {
    && SafeNonnegative(c.consent) && |c.peers| <= 5 && ValidGeneration(c.stopExpected)
    && match c.action
       case Grant => ValidLeaseControl(c)
       case Renew => ValidLeaseControl(c)
       case Clear => NoStop(c) && Bound(c) && c.ttlMs == 0 && c.cadenceMs.None? && c.peers == []
       case Status =>
         && c.session.None? && c.member.None? && c.stream.None? && c.revision == 0 && c.epoch == 0
         && c.ttlMs == 0 && c.cadenceMs.None? && c.peers == []
         && (c.stopResult.None? ==> NoStop(c))
         && (c.stopResult.Some? ==> c.stopOp.Some? && ValidStopResult(c))
  }

  predicate ValidLeaseControl(c: Control) {
    NoStop(c) && Bound(c) && 1 <= c.ttlMs <= 10000 && c.cadenceMs.Some? && 1 <= c.cadenceMs.value <= 5000
  }

  predicate ValidStopResult(c: Control)
    requires c.stopResult.Some?
  {
    match c.stopResult.value
    case Committed => c.stopExpected.Some? && c.consent > c.stopExpected.value
    case Superseded => c.stopExpected.Some? && c.consent > c.stopExpected.value
    case Unconfirmed => c.stopExpected.Some? && c.consent > c.stopExpected.value
    case NotFound => c.stopExpected.None?
    case Expired => c.stopExpected.None?
    case Error => true
  }

  datatype PeerPosition = PeerPosition(
    session: Id, revision: int, epoch: int, stream: Id, peer: Id, peerStream: Id, peerEpoch: int,
    sequence: int, captured: int, validFor: int)

  predicate ValidPeerPosition(p: PeerPosition) {
    SafePositive(p.peerEpoch) && SafePositive(p.sequence) && SafePositive(p.captured) && 0 <= p.validFor <= 10000
  }

  datatype PeerStatusKind = PeerNoFix | PeerInactive | PeerCleared

  datatype PeerStatus = PeerStatus(
    session: Id, revision: int, epoch: int, stream: Id, peer: Id, peerStream: Id, peerEpoch: int,
    status: PeerStatusKind)

  predicate ValidPeerStatus(p: PeerStatus) {
    SafePositive(p.peerEpoch)
  }

  // ---- adapter to server ----

  datatype SourceState = NoFix | FixAvailable

  datatype SourceStatus = SourceStatus(
    nonce: Id, session: Id, member: Id, revision: int, epoch: int, stream: Id, sequence: int,
    state: SourceState, captured: Option<int>)

  predicate EncodableStatus(s: SourceStatus) {
    && SafePositive(s.revision) && SafePositive(s.epoch) && SafePositive(s.sequence)
    && (s.state.NoFix? ==> s.captured.None?)
    && (s.state.FixAvailable? ==> s.captured.Some? && SafePositive(s.captured.value))
  }

  datatype StopMode = Query | Apply

  datatype MqttPub =
    | HelloPub(challenge: Id)
    | ActivityPub(boot: Id, activitySeq: int, active: bool)
    | PositionPub(session: Id, member: Id, stream: Id, revision: int, epoch: int, generation: nat,
                  captured: Time, sequence: int)
    | StatusPub(state: SourceState, statusSeq: int, statusCaptured: Time, statusGeneration: nat)
    | StopPub(op: Id, fence: Option<int>, stopChallenge: Id, mode: StopMode)

  // ---- adapter to dashboard (Redis) ----

  datatype LocalResult = Offer | Outcome(result: StopResult)

  datatype RedisMsg =
    | ProbeMsg(probe: Id)
    | ResultMsg(op: Id, revision: int, challenge: Id, nonce: Id, result: LocalResult,
                expected: Option<int>, committed: Option<int>)
    | ControlMsg(control: Control)
    | PeerMsg(position: PeerPosition)
    | PeerStatusMsg(status: PeerStatus)
}
