/**
 The peers and the two later boundaries, exactly: when a peer's position or status is passed to the dashboard,
 what the live boundary still lets through, and what the Redis boundary publishes, with its time left.
 */
module BoundaryResponses {
  import opened Basics
  import opened Messages
  import opened AdapterModel
  import opened Vocabulary
  import opened ReplyResponses
  import opened FeedResponses

  // ---- peers ----

  /** The grant in force is the one these four values name. */
  predicate Receives(s: State, env: Env, session: Id, revision: int, epoch: int, stream: Id) {
    && InForce(s, env)
    && s.consent.grant.value.session == Some(session) && s.consent.grant.value.stream == Some(stream)
    && s.consent.grant.value.revision == revision && s.consent.grant.value.epoch == epoch
  }

  /** The position is new: of a later epoch than the peer's mark, or the next on its open stream in both counts. */
  predicate NewFromPeer(s: State, p: PeerPosition) {
    p.peer in s.peers.streams ==>
      var mark := s.peers.streams[p.peer];
      || p.peerEpoch > mark.epoch
      || (&& p.peerEpoch == mark.epoch && p.peerStream == mark.stream && !mark.closed
          && p.sequence > mark.sequence && p.captured > mark.captured)
  }

  /** A peer's position is passed on, and is the peer's mark, exactly when the grant in force lists it and it is new. */
  lemma PeerIsPassedOn(s: State, env: Env, p: PeerPosition)
    ensures var t := OnPeer(s, env, p);
            if Receives(s, env, p.session, p.revision, p.epoch, p.stream) && p.peer in s.consent.grant.value.peers
               && NewFromPeer(s, p)
            then
              && t.peers == s.peers.(streams := s.peers.streams[
                              p.peer := PeerStream(p.peerStream, p.peerEpoch, p.sequence, p.captured, false)])
              && t.log == s.log.(queued := s.log.queued + [Entry(s, env, PeerMsg(p), env.now + SECOND)])
              && t.consent == s.consent && t.journal == s.journal && t.source == s.source
            else t == s
  {
  }

  /**
   A peer's status is passed on, and closes its stream, exactly when the grant lists the peer and the status is of a
   later epoch than the mark, or of its stream. A mark of the same stream keeps its numbers.
   */
  lemma PeerStatusIsPassedOn(s: State, env: Env, p: PeerStatus)
    ensures var t := OnPeerStatus(s, env, p);
            var marked := p.peer in s.peers.streams;
            var mark := if marked then s.peers.streams[p.peer] else PeerStream("", 0, 0, 0, false);
            var same := marked && p.peerEpoch == mark.epoch && p.peerStream == mark.stream;
            if Receives(s, env, p.session, p.revision, p.epoch, p.stream) && p.peer in s.consent.grant.value.peers
               && (!marked || same || p.peerEpoch > mark.epoch)
            then
              && t.peers == s.peers.(streams := s.peers.streams[
                              p.peer := PeerStream(p.peerStream, p.peerEpoch, if same then mark.sequence else 0,
                                                   if same then mark.captured else 0, true)])
              && t.log == s.log.(queued := s.log.queued + [Entry(s, env, PeerStatusMsg(p), env.now + SECOND)])
              && t.consent == s.consent && t.journal == s.journal && t.source == s.source
            else t == s
  {
  }

  // ---- the live boundary ----

  /** A greeting may be written while settings are known and the client is connected. */
  lemma GreetingIsAuthorizedIff(s: State, env: Env, challenge: Id)
    ensures Authorized(s, env, HelloPub(challenge)) <==> s.consent.settingsReady && OnLine(s, env)
  {
  }

  /** An activity may be written while it is the accepted one, for ten seconds, and consent is open. */
  lemma ActivityIsAuthorizedIff(s: State, env: Env, boot: Id, sequence: int, active: bool)
    ensures Authorized(s, env, ActivityPub(boot, sequence, active)) <==>
            && Open(s) && OnLine(s, env) && s.consent.activity.Some?
            && (var a := s.consent.activity.value; a.boot == boot && a.sequence == sequence && a.active == active)
            && s.consent.activityAt <= env.now < s.consent.activityAt + 10 * SECOND
  {
  }

  /** A position may be written while the rider rides for the grant it names, and it is current and not too old. */
  lemma PositionIsAuthorizedIff(s: State, env: Env, pub: MqttPub)
    requires pub.PositionPub?
    ensures Authorized(s, env, pub) <==>
            && Receives(s, env, pub.session, pub.revision, pub.epoch, pub.stream) && RidesForGrant(s)
            && s.consent.grant.value.member == Some(pub.member) && Age(env.now, pub.captured)
            && !s.source.closed && pub.generation == s.source.generation
  {
  }

  /** A status may be written while it is the latest one, for the grant and connection it was made for. */
  lemma StatusIsAuthorizedIff(s: State, env: Env, pub: MqttPub)
    requires pub.StatusPub?
    ensures Authorized(s, env, pub) <==>
            && InForce(s, env) && RidesForGrant(s) && s.source.status.Some?
            && pub.statusGeneration == s.source.statusGeneration
            && (var st := s.source.status.value; var g := s.consent.grant.value;
                && pub.statusSeq == st.sequence && pub.state == st.state && st.nonce == s.link.connection
                && (Some(st.session), Some(st.member), Some(st.stream)) == (g.session, g.member, g.stream)
                && (st.revision, st.epoch) == (g.revision, g.epoch)
                && if st.state == NoFix then s.source.closed
                   else st.captured.Some? && Age(env.now, pub.statusCaptured))
  {
  }

  /** A stop request may be written while its attempt is open and the journal is where it found it. */
  lemma StopIsAuthorizedIff(s: State, env: Env, pub: MqttPub)
    requires pub.StopPub?
    ensures Authorized(s, env, pub) <==>
            && pub.stopChallenge in s.journal.attempts && s.journal.state.Some?
            && var a := s.journal.attempts[pub.stopChallenge];
               var st := s.journal.state.value;
               && !a.consumed && a.connection == s.link.connection && a.epoch == s.journal.epoch
               && a.startedAt <= env.now <= a.deadline
               && st.op == Some(a.op) && st.revision == a.revision && st.expected == a.fence
               && if a.mode == Apply then st.phase == Prepared && st.committed.None?
                  else st.phase == Prepared || st.phase == Uncertain
  {
  }

  // ---- the Redis boundary ----

  /** Settings are known and the client is connected, without which nothing is published. */
  predicate Publishing(s: State, env: Env) {
    s.consent.settingsReady && OnLine(s, env)
  }

  /** A probe is published before its deadline, while it can be answered. */
  lemma ProbeIsPublishedIff(s: State, env: Env, p: RedisPub)
    requires p.msg.ProbeMsg?
    ensures var c := p.msg.probe;
            FinalRedis(s, env, p) ==
            if Publishing(s, env) && Outstanding(s, env, c) && s.journal.probes[c].issuedAt <= env.now
               && env.now != s.journal.probes[c].deadline
            then Some(p.msg) else None
  {
  }

  /** A result is published while the journal is at its operation and revision, and still open for it. */
  lemma ResultIsPublishedIff(s: State, env: Env, p: RedisPub)
    requires p.msg.ResultMsg?
    ensures var st := s.journal.state;
            FinalRedis(s, env, p) ==
            if Publishing(s, env) && p.msg.nonce == s.link.connection && st.Some?
               && st.value.op == Some(p.msg.op) && st.value.revision == p.msg.revision
               && (if p.msg.result == Offer then st.value.phase == Preparing
                   else st.value.phase == Prepared || st.value.phase == Uncertain)
            then Some(p.msg) else None
  {
  }

  /** The control names the grant held. */
  predicate NamesGrant(s: State, c: Control) {
    s.consent.grant.Some? &&
    var g := s.consent.grant.value;
    (g.session, g.member, g.stream) == (c.session, c.member, c.stream) &&
    (g.revision, g.epoch, g.consent) == (c.revision, c.epoch, c.consent)
  }

  /** What is left of a control's lease: of the held one, and of its own since it was queued. */
  function LeaseLeft(s: State, now: Time, c: Control, queuedAt: Time): int {
    Least(s.consent.grantAt + s.consent.grantTTL - now, queuedAt + c.ttlMs * MILLISECOND - now)
  }

  /** A grant is published while it is the one held and running, with the whole milliseconds that are left. */
  lemma LeaseIsPublishedIff(s: State, env: Env, p: RedisPub)
    requires p.msg.ControlMsg? && (p.msg.control.action == Grant || p.msg.control.action == Renew)
    ensures var c := p.msg.control;
            var left := LeaseLeft(s, env.now, c, p.queuedAt);
            FinalRedis(s, env, p) ==
            if Publishing(s, env) && c.nonce == s.link.connection && Open(s) && Sharing(s, env.now)
               && LeaseRuns(s, env.now) && NamesGrant(s, c) && left >= MILLISECOND
            then Some(ControlMsg(c.(ttlMs := left / MILLISECOND))) else None
  {
  }

  /** Another control is published as it is, but no clear while a grant is held. */
  lemma ControlIsPublishedIff(s: State, env: Env, p: RedisPub)
    requires p.msg.ControlMsg? && (p.msg.control.action == Clear || p.msg.control.action == Status)
    ensures FinalRedis(s, env, p) ==
            if Publishing(s, env) && p.msg.control.nonce == s.link.connection
               && (p.msg.control.action == Clear ==> s.consent.grant.None?)
            then Some(p.msg) else None
  {
  }

  /** The whole milliseconds since the message was queued, if the clock has not gone back by one or more. */
  function WholeMs(s: State, env: Env, p: RedisPub): int {
    if env.now >= p.queuedAt then (env.now - p.queuedAt) / MILLISECOND else -((p.queuedAt - env.now) / MILLISECOND)
  }

  /** A peer's position is published while it is the peer's mark, less valid by the milliseconds it waited. */
  lemma PeerIsPublishedIff(s: State, env: Env, p: RedisPub)
    requires p.msg.PeerMsg?
    ensures var v := p.msg.position;
            var waited := WholeMs(s, env, p);
            FinalRedis(s, env, p) ==
            if Publishing(s, env) && Receives(s, env, v.session, v.revision, v.epoch, v.stream)
               && v.peer in s.peers.streams
               && s.peers.streams[v.peer] == PeerStream(v.peerStream, v.peerEpoch, v.sequence, v.captured, false)
               && 0 <= waited < v.validFor
            then Some(PeerMsg(v.(validFor := v.validFor - waited))) else None
  {
  }

  /** A peer's status is published while the peer's stream is the closed one it speaks of. */
  lemma PeerStatusIsPublishedIff(s: State, env: Env, p: RedisPub)
    requires p.msg.PeerStatusMsg?
    ensures var v := p.msg.status;
            FinalRedis(s, env, p) ==
            if Publishing(s, env) && Receives(s, env, v.session, v.revision, v.epoch, v.stream)
               && v.peer in s.peers.streams && s.peers.streams[v.peer].closed
               && (s.peers.streams[v.peer].stream, s.peers.streams[v.peer].epoch) == (v.peerStream, v.peerEpoch)
            then Some(p.msg) else None
  {
  }

  /** The worker publishes what it took, as it is at that moment, unless its time is over; it has then dealt with it. */
  lemma DeliveryPublishes(s: State, env: Env)
    requires s.redis.inflight.Some?
    ensures var t := OnRedisDeliver(s, env);
            var p := s.redis.inflight.value;
            var final := FinalRedis(s, env, p);
            && t == s.(redis := s.redis.(inflight := None), log := t.log)
            && t.log == s.log.(published := s.log.published +
                                            (if (p.expiresAt == 0 || env.now < p.expiresAt) && final.Some?
                                             then [Published(final.value, p.serial)] else []))
  {
  }

  /** The worker takes the oldest message when it is idle. */
  lemma TakeIsOldest(s: State)
    ensures var t := OnRedisTake(s);
            if s.redis.inflight.None? && |s.redis.queue| > 0 then
              && t.redis.inflight == Some(s.redis.queue[0]) && s.redis.queue == [s.redis.queue[0]] + t.redis.queue
              && t == s.(redis := t.redis) && t.redis.next == s.redis.next
            else t == s
  {
  }

  /** A position is authorized at the moment it is queued; what may be sent may be written. */
  lemma QueuedPositionIsAuthorized(s: State, env: Env, captured: Time)
    requires UsableFix(s, env, captured) && !s.source.closed
    requires s.source.estimator.Some? ==> captured > s.source.estimator.value
    requires MaySend(s, env) && CadenceOver(s, env.now)
    requires SafePositive(s.source.sequence + 1) && SafePositive(UnixMilli(captured))
    ensures var t := OnGps(s, env, Some(captured), true);
            |t.log.feed| == |s.log.feed| + 1 && Authorized(t, env, t.log.feed[|s.log.feed|].pub)
  {
    FixIsQueued(s, env, captured);
  }
}
