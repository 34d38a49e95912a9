/**
 The adapter as the object it is: mutable fields, handlers that update them step by step, and
 loops that prune its maps. Every method is proved to do what the function of the same step in
 AdapterModel says, so what is proved of runs of those functions holds of this object.
 */
module AdapterObject {
  import opened Basics
  import opened Messages
  import opened AdapterModel
  import opened AdapterRuns

  class Adapter {
    var phase: LoopPhase
    var link: Link
    var journal: Journal
    var consent: Consent
    var source: Source
    var peers: Peers
    var redis: RedisEgress
    var log: Log

    function View(): State
      reads this
    {
      State(phase, link, journal, consent, source, peers, redis, log)
    }

    constructor ()
      ensures View() == Init()
    {
      phase := Subscribing;
      link := Link(None, "", false, 0);
      journal := Journal(false, None, false, 0, map[], map[], map[], None, None, []);
      consent := Consent(false, false, None, 0, "", 0, map[], None, 0, 0, false, None, None, DEFAULT_CADENCE);
      source := Source(0, 0, 0, None, None, 0, false, 0, false, 0, 0);
      peers := Peers("", map[]);
      redis := RedisEgress(0, [], None);
      log := Log([], [], [], [], []);
    }

    // ---- egress ----

    method QueueLive(pub: MqttPub, expiresAt: Time)
      modifies this`log
      ensures View() == Send(old(View()), pub, expiresAt)
    {
      if link.client.Some? {
        var live := Live(link.client.value, link.connection, pub, expiresAt);
        match pub {
          case HelloPub(_) => log := log.(notices := log.notices + [live]);
          case ActivityPub(_, _, _) => log := log.(notices := log.notices + [live]);
          case StopPub(_, _, _, _) => log := log.(stops := log.stops + [live]);
          case PositionPub(_, _, _, _, _, _, _, _) => log := log.(feed := log.feed + [live]);
          case StatusPub(_, _, _, _) => log := log.(feed := log.feed + [live]);
        }
      }
    }

    method QueueForRedis(env: Env, msg: RedisMsg, maxAge: int)
      modifies this`redis, this`log
      ensures View() == QueueRedis(old(View()), env, msg, maxAge)
    {
      var expiresAt := 0;
      if maxAge > 0 {
        expiresAt := env.now + maxAge;
      }
      var pub := RedisPub(redis.next, msg, env.now, expiresAt);
      redis := redis.(next := redis.next + 1);
      if |redis.queue| >= REDIS_QUEUE_SIZE {
        redis := redis.(queue := redis.queue[1..]);
      }
      redis := redis.(queue := redis.queue + [pub]);
      log := log.(queued := log.queued + [pub]);
    }

    method SayHello(env: Env, challenge: Option<Id>)
      modifies this`log
      ensures View() == PublishHello(old(View()), env, challenge)
    {
      if Linked(View(), env) && link.connection != "" && challenge.Some? {
        QueueLive(HelloPub(challenge.value), env.now + ATTEMPT_LIFETIME);
      }
    }

    method SayActivity(env: Env, a: Activity)
      modifies this`log
      ensures View() == PublishActivity(old(View()), env, a)
    {
      if Linked(View(), env) && link.connection != "" {
        QueueLive(ActivityPub(a.boot, a.sequence, a.active), env.now + 5 * SECOND);
      }
    }

    // ---- retiring authority ----

    method BumpPositions()
      modifies this`source
      ensures View() == InvalidatePositions(old(View()))
    {
      source := source.(generation := source.generation + 1);
    }

    method ResetGrant()
      modifies this`consent, this`source
      ensures View() == ClearGrant(old(View()))
    {
      BumpPositions();
      consent := consent.(grant := None, grantAt := 0, grantTTL := 0, grantActive := false);
      source := source.(lastPositionAt := 0, estimator := None);
    }

    method ResetAttempts()
      modifies this`journal
      ensures View() == InvalidateAttempts(old(View()))
    {
      journal := journal.(probes := map[], attempts := map[], used := map[], query := None);
    }

    method ForgetActivity()
      modifies this`consent
      ensures View() == DropActivity(old(View()))
    {
      consent := consent.(activity := None, activityAt := 0, challenges := map[]);
    }

    method InhibitJournal()
      modifies this`journal, this`consent, this`source
      ensures View() == Inhibit(old(View()))
    {
      journal := journal.(ready := false, blocked := true);
      ForgetActivity();
      journal := journal.(permit := None);
      ResetAttempts();
      journal := journal.(epoch := journal.epoch + 1);
      ResetGrant();
    }

    method Reset(client: Option<nat>, connection: Id)
      modifies this`link, this`journal, this`consent, this`source
      ensures View() == ResetConnection(old(View()), client, connection)
    {
      link := link.(client := client, connection := connection);
      ForgetActivity();
      ResetAttempts();
      journal := journal.(permit := None, ready := false, epoch := journal.epoch + 1, state := None, blocked := false);
      consent := consent.(lastCleared := None, lastAuthority := None);
      BumpPositions();
      ResetGrant();
    }

    method FailClosed()
      modifies this`phase, this`journal, this`consent, this`source
      ensures View() == OnFailClosed(old(View()))
    {
      phase := Subscribing;
      consent := consent.(settingsReady := false);
      ForgetActivity();
      ResetAttempts();
      journal := journal.(permit := None, ready := false, blocked := true, state := None, epoch := journal.epoch + 1);
      BumpPositions();
      ResetGrant();
    }

    // ---- journal probes ----

    method DropStaleProbes(now: Time)
      modifies this`journal
      ensures View() == old(View()).(journal := old(journal).(probes := FreshProbes(old(View()), now)))
    {
      var rest := journal.probes.Keys;
      while rest != {}
        invariant journal == old(journal).(probes := journal.probes)
        invariant rest <= journal.probes.Keys <= old(journal.probes.Keys)
        invariant forall c | c in old(journal.probes) ::
          c in journal.probes <==> c in rest || !ProbeStale(old(View()), now, old(journal.probes[c]))
        invariant forall c | c in journal.probes :: journal.probes[c] == old(journal.probes)[c]
        decreases |rest|
      {
        var c :| c in rest;
        if ProbeStale(View(), now, journal.probes[c]) {
          journal := journal.(probes := journal.probes - {c});
        }
        rest := rest - {c};
      }
      assert journal.probes == FreshProbes(old(View()), now);
    }

    /** Forgets when the probes before `cutoff` were issued. */
    method KeepRecentProbeTimes(cutoff: Time)
      modifies this`journal
      ensures View() == old(View()).(journal := old(journal).(probeTimes := Since(old(journal.probeTimes), cutoff)))
    {
      var kept := [];
      var i := 0;
      while i < |journal.probeTimes|
        invariant 0 <= i <= |journal.probeTimes|
        invariant kept + Since(journal.probeTimes[i..], cutoff) == Since(journal.probeTimes, cutoff)
      {
        if journal.probeTimes[i] >= cutoff {
          kept := kept + [journal.probeTimes[i]];
        }
        i := i + 1;
      }
      journal := journal.(probeTimes := kept);
    }

    method TryProbe(env: Env, purpose: Purpose, query: Option<PreparedQuery>, id: Option<Id>) returns (issued: bool)
      modifies this`journal, this`redis, this`log
      ensures View() == IssueProbe(old(View()), env, purpose, query, id)
      ensures issued == IssuesProbe(old(View()), env, id)
    {
      if !ProbeAllowed(View(), env) {
        return false;
      }
      DropStaleProbes(env.now);
      if |journal.probes| >= 1 {
        return false;
      }
      KeepRecentProbeTimes(env.now - ATTEMPT_LIFETIME);
      if |journal.probeTimes| >= 10 || id.None? {
        return false;
      }
      var probe := NewProbe(View(), env, purpose, query, id.value);
      journal := journal.(probes := journal.probes[id.value := probe], probeTimes := journal.probeTimes + [env.now]);
      QueueForRedis(env, ProbeMsg(id.value), ATTEMPT_LIFETIME);
      return true;
    }

    method AskForJournal(env: Env, id: Option<Id>)
      modifies this`journal, this`redis, this`log
      ensures View() == RequestReconciliation(old(View()), env, id)
    {
      var _ := TryProbe(env, Reconcile, None, id);
    }

    /** The loop forgets any one answer when there are more than ten; `evicted` is the one. */
    method Consume(answer: LocalStop) returns (evicted: Id)
      requires |journal.used| <= 10
      modifies this`journal
      ensures View() == ConsumeProbe(old(View()), answer, evicted)
      ensures |old(journal.used)| >= 10 ==> evicted in old(journal.used) || evicted == answer.challenge
    {
      evicted := answer.challenge;
      OneMoreKey(journal.used, answer);
      journal := journal.(probes := journal.probes - {answer.challenge},
          used := journal.used[answer.challenge := answer]);
      if |journal.used| > 10 {
        evicted :| evicted in journal.used;
        journal := journal.(used := journal.used - {evicted});
      }
    }

    // ---- stop requests ----

    method HasLiveAttempt(now: Time) returns (live: bool)
      ensures live <==> exists c :: c in journal.attempts && AttemptLive(journal.attempts[c], now)
    {
      var rest := journal.attempts.Keys;
      while rest != {}
        invariant rest <= journal.attempts.Keys
        invariant forall c | c in journal.attempts && AttemptLive(journal.attempts[c], now) :: c in rest
        decreases |rest|
      {
        var c :| c in rest;
        if AttemptLive(journal.attempts[c], now) {
          return true;
        }
        rest := rest - {c};
      }
      return false;
    }

    method TrySendStop(env: Env, op: Id, revision: int, expected: Option<int>, challenge: Id, mode: StopMode,
        deadline: Time)
      returns (sent: bool)
      modifies this`journal, this`log
      ensures View() == SendStop(old(View()), env, op, revision, expected, challenge, mode, deadline)
      ensures sent == CanSendStop(old(View()), env, op, revision, expected, mode)
    {
      if !Linked(View(), env) || link.connection == "" || !JournalNames(View(), op, revision) || journal.epoch == 0 {
        return false;
      }
      var state := journal.state.value;
      if mode.Apply? && (!state.phase.Prepared? || state.expected != expected || state.committed.Some?
          || expected.None?) {
        return false;
      }
      var until := deadline;
      if deadline == 0 || deadline > env.now + ATTEMPT_LIFETIME {
        until := env.now + ATTEMPT_LIFETIME;
      }
      var busy := HasLiveAttempt(env.now);
      if busy || |journal.attempts| >= 10 {
        return false;
      }
      var attempt := Attempt(op, revision, challenge, link.connection, env.now, mode, expected, until, journal.epoch,
          false);
      journal := journal.(attempts := journal.attempts[challenge := attempt]);
      QueueLive(StopPub(op, expected, challenge, mode), until);
      return true;
    }

    // ---- journal snapshots ----

    method HandleSnapshot(env: Env, st: LocalStop, id: Option<Id>) returns (evicted: Id)
      requires |journal.used| <= 10
      modifies this`journal, this`consent, this`source, this`redis, this`log
      ensures View() == OnSnapshot(old(View()), env, st, evicted, id)
      ensures |old(journal.used)| >= 10 ==> evicted in old(journal.used) || evicted == st.challenge
    {
      evicted := st.challenge;
      if st.challenge in journal.used {
        if journal.used[st.challenge] != st {
          InhibitJournal();
          AskForJournal(env, id);
        }
        return;
      }
      if !AnswersProbe(View(), env, st.challenge) {
        if st.blocked || !st.phase.Idle? {
          InhibitJournal();
        }
        AskForJournal(env, id);
        return;
      }
      if !AcceptsRevision(View(), st) {
        InhibitJournal();
        var _ := Consume(st);
        AskForJournal(env, id);
        return;
      }
      var probe := journal.probes[st.challenge];
      evicted := Adopt(st);
      ActOn(env, st, probe);
    }

    method Adopt(st: LocalStop) returns (evicted: Id)
      requires |journal.used| <= 10
      modifies this`journal, this`consent, this`source
      ensures View() == AdoptSnapshot(old(View()), st, evicted)
      ensures |old(journal.used)| >= 10 ==> evicted in old(journal.used) || evicted == st.challenge
    {
      evicted := Consume(st);
      journal := journal.(state := Some(st), blocked := st.blocked, ready := st.phase.Idle? && !st.blocked);
      if st.blocked || !st.phase.Idle? {
        ResetGrant();
      }
    }

    method ActOn(env: Env, st: LocalStop, probe: Probe)
      modifies this`journal, this`log
      ensures View() == ActOnSnapshot(old(View()), env, st, probe)
    {
      if probe.purpose.ApplyConfirmation? {
        FinalizeApply(env, st, probe);
        return;
      }
      match st.phase {
        case Idle =>
          if !st.blocked {
            SayQueuedActivity(env);
          }
        case Preparing =>
          if st.op.Some? && st.expected.None? && st.committed.None? {
            var permit := Probe(st.challenge, probe.connection, probe.issuedAt, probe.deadline, OfferPermit,
                                st.op.value, st.revision, None, probe.epoch);
            journal := journal.(permit := Some(permit));
            SayHello(env, Some(st.challenge));
          }
        case Prepared =>
          if st.op.Some? && st.expected.Some? && st.committed.None? {
            var q := PreparedQuery(st.op.value, st.revision, st.expected.value, link.connection,
                                   journal.epoch, probe.deadline, st.challenge);
            journal := journal.(query := Some(q));
            var _ := TrySendStop(env, st.op.value, st.revision, st.expected, st.challenge, Query, probe.deadline);
          }
        case Uncertain =>
          if st.op.Some? {
            var _ := TrySendStop(env, st.op.value, st.revision, st.expected, st.challenge, Query, probe.deadline);
          }
        case Confirmed =>
      }
    }

    method FinalizeApply(env: Env, st: LocalStop, probe: Probe)
      modifies this`journal, this`log
      ensures View() == ConfirmApply(old(View()), env, st, probe)
    {
      if !Confirms(View(), env, st, probe) {
        journal := journal.(query := None);
        return;
      }
      var q := journal.query.value;
      var sent := TrySendStop(env, q.op, q.revision, Some(q.fence), probe.challenge, Apply, q.deadline);
      if sent {
        journal := journal.(query := None);
      }
    }

    method SayQueuedActivity(env: Env)
      modifies this`log
      ensures View() == PublishQueuedActivity(old(View()), env)
    {
      if consent.activity.Some? && journal.ready && !consent.blocked && !journal.blocked {
        SayActivity(env, consent.activity.value);
      }
    }

    // ---- activity ----

    method HandleActivity(env: Env, a: Activity) returns (victim: Id)
      requires |consent.challenges| <= 9
      modifies this`consent, this`source, this`log
      ensures View() == OnActivity(old(View()), env, a, victim)
      ensures OldestChallenge(old(consent.challenges)[a.challenge := env.now], env.now, victim)
    {
      if !AcceptsActivity(View(), env, a) {
        var challenges := consent.challenges[a.challenge := env.now];
        victim := SomeOldest(map c | c in challenges && env.now - challenges[c] < LEASE_DURATION :: challenges[c]);
        return;
      }
      consent := consent.(activity := Some(a), boot := a.boot, bootSeq := a.sequence, activityAt := env.now);
      if !a.active {
        ResetGrant();
      }
      if SameBinding(consent.grant, a) {
        consent := consent.(grantActive := true);
      }
      consent := consent.(challenges := consent.challenges[a.challenge := env.now]);
      victim := DropChallenges(env.now);
      SayHello(env, Some(a.challenge));
      SayActivity(env, a);
    }

    method DropChallenges(now: Time) returns (victim: Id)
      requires |consent.challenges| <= 10
      modifies this`consent
      ensures View() == old(View()).(consent := old(consent).(challenges := PruneChallenges(old(consent.challenges),
              now, victim)))
      ensures OldestChallenge(old(consent.challenges), now, victim)
    {
      DropOldChallenges(now);
      var recent := consent.challenges;
      victim := SomeOldest(recent);
      if |consent.challenges| >= 10 {
        consent := consent.(challenges := consent.challenges - {victim});
      }
    }

    method DropOldChallenges(now: Time)
      modifies this`consent
      ensures View() == old(View()).(consent := old(consent).(challenges := map c | c in old(consent.challenges) &&
                                       now - old(consent.challenges)[c] < LEASE_DURATION :: old(consent.challenges)[c]))
    {
      ghost var recent := map c | c in consent.challenges && now - consent.challenges[c] < LEASE_DURATION ::
          consent.challenges[c];
      var rest := consent.challenges.Keys;
      while rest != {}
        invariant consent == old(consent).(challenges := consent.challenges)
        invariant rest <= consent.challenges.Keys
        invariant forall c | c in consent.challenges ::
            c in old(consent.challenges) && consent.challenges[c] == old(consent.challenges)[c]
        invariant forall c | c in recent :: c in consent.challenges
        invariant forall c | c in consent.challenges :: c in rest || c in recent
        decreases |rest|
      {
        var c :| c in rest;
        if now - consent.challenges[c] >= LEASE_DURATION {
          consent := consent.(challenges := consent.challenges - {c});
        }
        rest := rest - {c};
      }
      assert consent.challenges == recent;
    }

    // ---- server controls ----

    method HandleControl(env: Env, c: Control, id: Option<Id>)
      requires ValidControl(c)
      modifies this`journal, this`consent, this`source, this`peers, this`redis, this`log
      ensures View() == OnControl(old(View()), env, c, id)
    {
      if !Linked(View(), env) || c.nonce != link.connection {
        return;
      }
      if c.action.Status? && c.stopResult.Some? {
        HandleStopStatus(env, c, id);
      } else if c.action.Status? {
        SendOffer(env, c);
        QueueForRedis(env, ControlMsg(c), ATTEMPT_LIFETIME);
      } else if c.action.Clear? {
        HandleClear(env, c);
      } else if AcceptsGrant(View(), env, c) {
        HandleGrant(env, c);
      }
    }

    method HandleClear(env: Env, c: Control)
      modifies this`consent, this`source, this`redis, this`log
      requires c.action.Clear? && Linked(View(), env) && c.nonce == link.connection
      ensures View() == OnClear(old(View()), env, c)
    {
      if consent.grant.Some? {
        var held := consent.grant.value;
        if held.session != c.session || held.member != c.member || Regresses(c, held) {
          return;
        }
        consent := consent.(lastCleared := Some(c));
        ResetGrant();
        consent := consent.(activity := None, activityAt := 0);
      } else if journal.blocked {
        return;
      }
      consent := consent.(challenges := map[]);
      QueueForRedis(env, ControlMsg(c), 0);
    }

    method HandleGrant(env: Env, c: Control)
      requires AcceptsGrant(View(), env, c) && c.cadenceMs.Some?
      modifies this`consent, this`source, this`peers, this`redis, this`log
      ensures View() == InstallGrant(old(View()), env, c)
    {
      var sentAt := consent.challenges[c.challenge];
      if StartsStream(View(), c) {
        RestartStream();
      }
      Hold(env, c);
      ScopePeers(c);
      if source.closed {
        SayNoFix(env);
      }
      QueueForRedis(env, ControlMsg(c), LEASE_DURATION - (env.now - sentAt));
    }

    method Hold(env: Env, c: Control)
      requires c.challenge in consent.challenges && consent.activity.Some? && c.cadenceMs.Some?
      modifies this`consent
      ensures View() == HoldGrant(old(View()), env, c)
    {
      var sentAt := consent.challenges[c.challenge];
      var a := consent.activity.value;
      consent := consent.(grant := Some(c), lastAuthority := Some(c), lastCleared := None);
      consent := consent.(grantAt := env.now, grantTTL := c.ttlMs * MILLISECOND - (env.now - sentAt));
      consent := consent.(grantActive := a.session.Some? && a.session == c.session && a.member == c.member);
      consent := consent.(cadence := c.cadenceMs.value * MILLISECOND);
      if consent.cadence < SECOND {
        consent := consent.(cadence := SECOND);
      }
    }

    method RestartStream()
      modifies this`source
      ensures View() == BeginStream(old(View()))
    {
      source := source.(sequence := 0);
      BumpPositions();
      if source.fixPending {
        source := source.(closed := false);
        source := source.(fixPending := false);
      }
    }

    method ScopePeers(c: Control)
      requires c.session.Some?
      modifies this`peers
      ensures View() == old(View()).(peers := SetReplayScope(old(peers), c))
    {
      if peers.scope != c.session.value {
        peers := Peers(c.session.value, map[]);
      }
      ghost var before := peers.streams;
      var authorized := {};
      for k := 0 to |c.peers|
        invariant authorized == set j | 0 <= j < k :: c.peers[j]
      {
        authorized := authorized + {c.peers[k]};
      }
      var rest := peers.streams.Keys;
      while rest != {}
        invariant peers.scope == c.session.value && rest <= peers.streams.Keys
        invariant forall p | p in peers.streams :: p in before && peers.streams[p] == before[p]
        invariant forall p | p in before && p in c.peers :: p in peers.streams
        invariant forall p | p in peers.streams :: p in rest || p in c.peers
        decreases |rest|
      {
        var p :| p in rest;
        if p !in authorized {
          peers := peers.(streams := peers.streams - {p});
        }
        rest := rest - {p};
      }
      assert peers.streams == SetReplayScope(old(peers), c).streams;
    }

    method SendOffer(env: Env, c: Control)
      modifies this`journal, this`redis, this`log
      ensures View() == MaybeOffer(old(View()), env, c)
    {
      if Offers(View(), env, c) {
        var p := journal.permit.value;
        journal := journal.(permit := None);
        QueueForRedis(env, ResultMsg(p.op, p.revision, p.challenge, link.connection, Offer, Some(c.consent), None),
                      p.deadline - env.now);
      }
    }

    method HandleStopStatus(env: Env, c: Control, id: Option<Id>)
      requires c.stopResult.Some?
      modifies this`journal, this`consent, this`source, this`redis, this`log
      ensures View() == OnStopStatus(old(View()), env, c, id)
    {
      if !AnswersAttempt(View(), env, c) {
        return;
      }
      var t := journal.attempts[c.challenge];
      if ContradictsAttempt(View(), c, t) {
        InhibitJournal();
        return;
      }
      journal := journal.(attempts := journal.attempts[c.challenge := t.(consumed := true)]);
      SendResult(env, c, t);
      if t.mode.Query? && c.stopResult == Some(NotFound) && QueryPending(View(), env, t) {
        var issued := TryProbe(env, ApplyConfirmation, journal.query, id);
        if issued {
          return;
        }
        journal := journal.(query := None);
      }
      if t.mode.Apply? {
        journal := journal.(query := None);
      }
    }

    method SendResult(env: Env, c: Control, t: Attempt)
      requires c.stopResult.Some?
      modifies this`redis, this`log
      ensures View() == ForwardResult(old(View()), env, c, t)
    {
      var committed := None;
      match c.stopResult.value {
        case Committed => committed := Some(c.consent);
        case Superseded => committed := Some(c.consent);
        case Unconfirmed => committed := Some(c.consent);
        case _ =>
      }
      QueueForRedis(env, ResultMsg(t.op, t.revision, t.challenge, t.connection, Outcome(c.stopResult.value),
          c.stopExpected, committed),
                    t.deadline - env.now);
    }

    // ---- peers ----

    method PeerInGrant(p: Id) returns (listed: bool)
      ensures listed <==> consent.grant.Some? && p in consent.grant.value.peers
    {
      if consent.grant.None? {
        return false;
      }
      var listing := consent.grant.value.peers;
      for k := 0 to |listing|
        invariant p !in listing[..k]
      {
        if listing[k] == p {
          return true;
        }
      }
      return false;
    }

    method HandlePeer(env: Env, p: PeerPosition)
      modifies this`peers, this`redis, this`log
      ensures View() == OnPeer(old(View()), env, p)
    {
      var listed := PeerInGrant(p.peer);
      if !ReceiverCurrent(View(), env, p.session, p.revision, p.epoch, p.stream) || !listed {
        return;
      }
      if p.peer in peers.streams {
        var prior := peers.streams[p.peer];
        if p.peerEpoch < prior.epoch {
          return;
        }
        if p.peerEpoch == prior.epoch &&
           (p.peerStream != prior.stream || prior.closed || p.sequence <= prior.sequence
               || p.captured <= prior.captured) {
          return;
        }
      }
      var stream := PeerStream(p.peerStream, p.peerEpoch, p.sequence, p.captured, false);
      peers := peers.(streams := peers.streams[p.peer := stream]);
      QueueForRedis(env, PeerMsg(p), SECOND);
    }

    method HandlePeerStatus(env: Env, p: PeerStatus)
      modifies this`peers, this`redis, this`log
      ensures View() == OnPeerStatus(old(View()), env, p)
    {
      var listed := PeerInGrant(p.peer);
      if !ReceiverCurrent(View(), env, p.session, p.revision, p.epoch, p.stream) || !listed {
        return;
      }
      var prior := PeerStream(p.peerStream, p.peerEpoch, 0, 0, false);
      if p.peer in peers.streams {
        var held := peers.streams[p.peer];
        if p.peerEpoch < held.epoch || (p.peerEpoch == held.epoch && p.peerStream != held.stream) {
          return;
        }
        if p.peerEpoch == held.epoch {
          prior := held;
        }
      }
      prior := prior.(closed := true);
      peers := peers.(streams := peers.streams[p.peer := prior]);
      QueueForRedis(env, PeerStatusMsg(p), SECOND);
    }

    // ---- GPS source ----

    method SayStatus(env: Env, status: SourceStatus) returns (queued: bool)
      modifies this`source, this`log
      ensures View() == PublishStatus(old(View()), env, status)
      ensures queued == EncodableStatus(status)
    {
      if !EncodableStatus(status) {
        return false;
      }
      source := source.(status := Some(status), statusGeneration := source.statusGeneration + 1);
      source := source.(retryAt := env.now + STATUS_RETRY);
      QueueLive(StatusPub(status.state, status.sequence, StatusTime(status), source.statusGeneration),
          env.now + 5 * SECOND);
      source := source.(sequence := status.sequence);
      return true;
    }

    method SayNoFix(env: Env)
      modifies this`source, this`log
      ensures View() == PublishNoFix(old(View()), env)
    {
      if source.closed && consent.grant.Some? && Bound(consent.grant.value) {
        var _ := SayStatus(env, StatusFor(View(), consent.grant.value, NoFix, None));
      }
    }

    method Retry(env: Env)
      modifies this`source, this`log
      ensures View() == RetryStatus(old(View()), env)
    {
      if RetriesStatus(View(), env) {
        var st := source.status.value;
        source := source.(retryAt := env.now + STATUS_RETRY);
        QueueLive(StatusPub(st.state, st.sequence, StatusTime(st), source.statusGeneration), env.now + 5 * SECOND);
      }
    }

    method CloseFix(env: Env)
      modifies this`source, this`log
      ensures View() == CloseSource(old(View()), env)
    {
      if source.closed && (source.status.None? || !source.status.value.state.FixAvailable?) {
        Retry(env);
        return;
      }
      source := source.(closed := true, fixPending := false, recoveryAfter := 0);
      BumpPositions();
      source := source.(estimator := None);
      if StatusAllowed(View(), env) {
        var _ := SayStatus(env, StatusFor(View(), consent.grant.value, NoFix, None));
      }
    }

    method DropFix(env: Env)
      modifies this`source, this`log
      ensures View() == LoseFix(old(View()), env)
    {
      BumpPositions();
      source := source.(estimator := None);
      CloseFix(env);
    }

    method HandleGps(env: Env, captured: Option<Time>, fixOk: bool)
      modifies this`source, this`log
      ensures View() == OnGps(old(View()), env, captured, fixOk)
    {
      if captured.None? || captured.value > env.now {
        DropFix(env);
      } else if captured.value <= source.observedAt {
        if !fixOk {
          DropFix(env);
        }
      } else {
        source := source.(observedAt := captured.value);
        if !fixOk || env.now - captured.value > FIX_LIFETIME {
          DropFix(env);
        } else {
          HandleFix(env, captured.value);
        }
      }
    }

    method HandleFix(env: Env, captured: Time)
      modifies this`source, this`log
      ensures View() == OnFix(old(View()), env, captured)
    {
      if source.closed {
        if source.fixPending && source.status.Some? && source.status.value.captured.Some? &&
           env.now - FromUnixMilli(source.status.value.captured.value) <= FIX_LIFETIME {
          Retry(env);
          return;
        }
        if StatusAllowed(View(), env) && captured != 0 && 0 <= env.now - captured <= FIX_LIFETIME {
          var queued := SayStatus(env, StatusFor(View(), consent.grant.value, FixAvailable, Some(UnixMilli(captured))));
          if queued {
            source := source.(fixPending := true, recoveryAfter := captured);
          }
        }
        return;
      }
      if source.estimator.Some? && captured <= source.estimator.value {
        BumpPositions();
        source := source.(estimator := None);
        return;
      }
      source := source.(estimator := Some(captured));
      if QueuesPosition(View(), env, captured) {
        var g := consent.grant.value;
        QueueLive(PositionPub(g.session.value, g.member.value, g.stream.value, g.revision, g.epoch,
                              source.generation, captured, source.sequence + 1), env.now + 5 * SECOND);
        source := source.(sequence := source.sequence + 1);
        source := source.(lastPositionAt := env.now);
      }
    }

    // ---- clock tick ----

    method HandleTick(env: Env)
      modifies this`journal, this`consent, this`source, this`log
      ensures View() == OnTick(old(View()), env)
    {
      Expire(env.now);
      Retry(env);
    }

    method Expire(now: Time)
      modifies this`journal, this`consent, this`source
      ensures View() == ExpireLease(old(View()), now)
    {
      ExpireActivity(now);
      if consent.grant.Some? && (now < consent.grantAt || now - consent.grantAt >= consent.grantTTL) {
        ResetGrant();
      }
      DropStaleProbes(now);
      DropStaleAttempts(now);
    }

    method ExpireActivity(now: Time)
      modifies this`consent, this`source
      ensures View() == if old(consent).activity.Some? &&
                           (now - old(consent).activityAt >= LEASE_DURATION || now < old(consent).activityAt)
                        then ClearGrant(DropActivity(old(View()))) else old(View())
    {
      if consent.activity.Some? && (now - consent.activityAt >= LEASE_DURATION || now < consent.activityAt) {
        ForgetActivity();
        ResetGrant();
      }
    }

    method DropStaleAttempts(now: Time)
      modifies this`journal
      ensures View() == old(View()).(journal := old(journal).(attempts :=
                          map c | c in old(journal.attempts)
                              && !AttemptStale(old(View()), now, old(journal.attempts)[c])
                          :: old(journal.attempts)[c]))
    {
      ghost var recent := map c | c in journal.attempts && !AttemptStale(View(), now, journal.attempts[c]) ::
          journal.attempts[c];
      var rest := journal.attempts.Keys;
      while rest != {}
        invariant journal == old(journal).(attempts := journal.attempts)
        invariant rest <= journal.attempts.Keys
        invariant forall c | c in journal.attempts ::
            c in old(journal.attempts) && journal.attempts[c] == old(journal.attempts)[c]
        invariant forall c | c in recent :: c in journal.attempts
        invariant forall c | c in journal.attempts :: c in rest || c in recent
        decreases |rest|
      {
        var c :| c in rest;
        if AttemptStale(View(), now, journal.attempts[c]) {
          journal := journal.(attempts := journal.attempts - {c});
        }
        rest := rest - {c};
      }
      assert journal.attempts == recent;
    }

    // ---- connection and settings ----

    method BeginConnect(env: Env, client: nat)
      modifies this`link
      ensures View() == OnConnectBegin(old(View()), env, client)
    {
      if !env.up || (link.client == Some(client) && link.connection != "") || link.connecting {
        return;
      }
      link := link.(connecting := true);
      link := link.(attempt := link.attempt + 1);
    }

    method FinishConnect(env: Env, client: nat, attempt: nat, connection: Option<Id>, hello: Option<Id>, id: Option<Id>)
      modifies this`link, this`journal, this`consent, this`source, this`redis, this`log
      ensures View() == OnConnectFinish(old(View()), env, client, attempt, connection, hello, id)
    {
      if link.attempt != attempt {
        return;
      }
      link := link.(connecting := false);
      if connection.None? {
        return;
      }
      Reset(Some(client), connection.value);
      SayHello(env, hello);
      var _ := TryProbe(env, Reconcile, None, id);
    }

    method Disconnect(client: nat)
      modifies this`link, this`journal, this`consent, this`source
      ensures View() == OnDisconnected(old(View()), client)
    {
      if link.client == Some(client) || link.connecting {
        link := link.(attempt := link.attempt + 1);
        link := link.(connecting := false);
        if link.client == Some(client) {
          Reset(None, "");
        }
      }
    }

    method BeginRecovery()
      modifies this`phase, this`consent
      ensures View() == OnRecoveryBegin(old(View()))
    {
      phase := Recovering;
      consent := consent.(settingsReady := false);
    }

    method FinishRecovery(env: Env, id: Option<Id>)
      modifies this`phase, this`journal, this`redis, this`log
      ensures View() == OnRecoveryDone(old(View()), env, id)
    {
      phase := Serving;
      var _ := TryProbe(env, Reconcile, None, id);
    }

    method RefreshBlocked(env: Env, blocked: bool, hello: Option<Id>, first: Option<Id>, second: Option<Id>)
      modifies this`journal, this`consent, this`source, this`redis, this`log
      ensures View() == OnRefresh(old(View()), env, blocked, hello, first, second)
    {
      var wasBlocked, wasReady := consent.blocked, consent.settingsReady;
      consent := consent.(blocked := blocked);
      consent := consent.(settingsReady := true);
      if !wasReady {
        Announce(env, hello, first);
      }
      if blocked || wasBlocked {
        StartOver(env, second);
      }
    }

    method Announce(env: Env, hello: Option<Id>, id: Option<Id>)
      modifies this`journal, this`redis, this`log
      ensures View() == AnnounceReady(old(View()), env, hello, id)
    {
      if Linked(View(), env) {
        SayHello(env, hello);
        var _ := TryProbe(env, Reconcile, None, id);
      }
    }

    method StartOver(env: Env, id: Option<Id>)
      modifies this`journal, this`consent, this`source, this`redis, this`log
      ensures View() == InhibitBySettings(old(View()), env, id)
    {
      InhibitJournal();
      ResetAttempts();
      journal := journal.(epoch := journal.epoch + 1);
      AskForJournal(env, id);
    }

    // ---- the Redis worker ----

    method TakeFromQueue()
      modifies this`redis
      ensures View() == OnRedisTake(old(View()))
    {
      if redis.inflight.None? && redis.queue != [] {
        var head := redis.queue[0];
        redis := redis.(queue := redis.queue[1..]);
        redis := redis.(inflight := Some(head));
      }
    }

    method Deliver(env: Env)
      modifies this`redis, this`log
      ensures View() == OnRedisDeliver(old(View()), env)
    {
      if redis.inflight.None? {
        return;
      }
      var p := redis.inflight.value;
      var final := FinalRedis(View(), env, p);
      redis := redis.(inflight := None);
      if (p.expiresAt == 0 || env.now < p.expiresAt) && final.Some? {
        log := log.(published := log.published + [Published(final.value, p.serial)]);
      }
    }
  }

  lemma OneMoreKey(used: map<Id, LocalStop>, answer: LocalStop)
    ensures |used[answer.challenge := answer]| <= |used| + 1
  {
    assert used[answer.challenge := answer].Keys == used.Keys + {answer.challenge};
  }

  /** Finds a challenge that no other one is older than. */
  method SomeOldest(challenges: map<Id, Time>) returns (oldest: Id)
    ensures |challenges| > 0 ==> oldest in challenges && forall c | c in challenges ::
            challenges[oldest] <= challenges[c]
  {
    oldest := "";
    var found := false;
    var rest := challenges.Keys;
    while rest != {}
      invariant rest <= challenges.Keys
      invariant !found ==> rest == challenges.Keys
      invariant found ==> oldest in challenges
      invariant found ==> forall c | c in challenges && c !in rest :: challenges[oldest] <= challenges[c]
      decreases |rest|
    {
      var c :| c in rest;
      if !found || challenges[c] < challenges[oldest] {
        oldest, found := c, true;
      }
      rest := rest - {c};
    }
  }
}
