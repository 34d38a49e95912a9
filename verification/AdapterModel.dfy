/**
 The ride-group v2 adapter as a function on states: what each handler, which the adapter runs
 under its mutex, does to the state. `Adapter` (Adapter.dfy) is the object with mutable fields
 that refines these functions; the properties of whole runs are proved about them.

 `log` records everything handed to the live transport, queued for Redis, and published to
 Redis, each in order.
 */
module AdapterModel {
  import opened Basics
  import opened Messages

  datatype Purpose = Reconcile | ApplyConfirmation | OfferPermit

  datatype Probe = Probe(
    challenge: Id, connection: Id, issuedAt: Time, deadline: Time, purpose: Purpose,
    op: Id, revision: int, fence: Option<int>, epoch: nat)

  datatype Attempt = Attempt(
    op: Id, revision: int, challenge: Id, connection: Id, startedAt: Time, mode: StopMode,
    fence: Option<int>, deadline: Time, epoch: nat, consumed: bool)

  datatype PreparedQuery = PreparedQuery(
    op: Id, revision: int, fence: int, connection: Id, epoch: nat, deadline: Time, queryChallenge: Id)

  datatype PeerStream = PeerStream(stream: Id, epoch: int, sequence: int, captured: int, closed: bool)

  /** Where the Redis loop stands: waiting for its subscriptions, re-reading settings, or serving. */
  datatype LoopPhase = Subscribing | Recovering | Serving

  datatype Link = Link(client: Option<nat>, connection: Id, connecting: bool, attempt: nat)

  datatype Journal = Journal(
    ready: bool, state: Option<LocalStop>, blocked: bool, epoch: nat,
    probes: map<Id, Probe>, attempts: map<Id, Attempt>, used: map<Id, LocalStop>,
    query: Option<PreparedQuery>, permit: Option<Probe>, probeTimes: seq<Time>)

  datatype Consent = Consent(
    settingsReady: bool, blocked: bool,
    activity: Option<Activity>, activityAt: Time, boot: Id, bootSeq: int, challenges: map<Id, Time>,
    grant: Option<Control>, grantAt: Time, grantTTL: int, grantActive: bool,
    lastCleared: Option<Control>, lastAuthority: Option<Control>, cadence: int)

  datatype Source = Source(
    generation: nat, lastPositionAt: Time, observedAt: Time, estimator: Option<Time>,
    status: Option<SourceStatus>, sequence: int, closed: bool, retryAt: Time,
    fixPending: bool, recoveryAfter: Time, statusGeneration: nat)

  datatype Peers = Peers(scope: Id, streams: map<Id, PeerStream>)

  /** `serial` numbers the publications; the queue itself holds at most eight. */
  datatype RedisPub = RedisPub(serial: nat, msg: RedisMsg, queuedAt: Time, expiresAt: Time)
  datatype RedisEgress = RedisEgress(next: nat, queue: seq<RedisPub>, inflight: Option<RedisPub>)

  /** A message handed to the live transport for one client and connection. */
  datatype Live = Live(client: nat, connection: Id, pub: MqttPub, expiresAt: Time)

  datatype Published = Published(msg: RedisMsg, serial: nat)

  /** Hellos and activities; stop requests; positions and source statuses; the two ends of the Redis queue. */
  datatype Log = Log(
    notices: seq<Live>, stops: seq<Live>, feed: seq<Live>, queued: seq<RedisPub>, published: seq<Published>)

  datatype State = State(
    phase: LoopPhase, link: Link, journal: Journal, consent: Consent, source: Source,
    peers: Peers, redis: RedisEgress, log: Log)

  /** What a step reads from its surroundings: the clock, and whether the client is connected. */
  datatype Env = Env(now: Time, up: bool)

  const REDIS_QUEUE_SIZE: nat := 8
  const DEFAULT_CADENCE: int := 2 * SECOND

  function Init(): State {
    State(
      Subscribing,
      Link(None, "", false, 0),
      Journal(false, None, false, 0, map[], map[], map[], None, None, []),
      Consent(false, false, None, 0, "", 0, map[], None, 0, 0, false, None, None, DEFAULT_CADENCE),
      Source(0, 0, 0, None, None, 0, false, 0, false, 0, 0),
      Peers("", map[]),
      RedisEgress(0, [], None),
      Log([], [], [], [], []))
  }

  // ---- egress ----

  predicate Linked(s: State, env: Env) {
    s.link.client.Some? && env.up
  }

  function Send(s: State, pub: MqttPub, expiresAt: Time): (r: State)
    ensures r == s.(log := r.log)
  {
    if s.link.client.None? then s
    else
      var live := Live(s.link.client.value, s.link.connection, pub, expiresAt);
      match pub
      case HelloPub(_) => s.(log := s.log.(notices := s.log.notices + [live]))
      case ActivityPub(_, _, _) => s.(log := s.log.(notices := s.log.notices + [live]))
      case StopPub(_, _, _, _) => s.(log := s.log.(stops := s.log.stops + [live]))
      case PositionPub(_, _, _, _, _, _, _, _) => s.(log := s.log.(feed := s.log.feed + [live]))
      case StatusPub(_, _, _, _) => s.(log := s.log.(feed := s.log.feed + [live]))
  }

  /** Appends to the bounded Redis queue; a full queue loses its oldest entry. */
  function QueueRedis(s: State, env: Env, msg: RedisMsg, maxAge: int): (r: State)
    ensures r == s.(redis := r.redis, log := s.log.(queued := r.log.queued))
  {
    var pub := RedisPub(s.redis.next, msg, env.now, if maxAge > 0 then env.now + maxAge else 0);
    var kept := if |s.redis.queue| < REDIS_QUEUE_SIZE then s.redis.queue else s.redis.queue[1..];
    s.(redis := s.redis.(next := s.redis.next + 1, queue := kept + [pub]),
        log := s.log.(queued := s.log.queued + [pub]))
  }

  function PublishHello(s: State, env: Env, challenge: Option<Id>): (r: State)
    ensures r == s.(log := s.log.(notices := r.log.notices))
  {
    if Linked(s, env) && s.link.connection != "" && challenge.Some?
    then Send(s, HelloPub(challenge.value), env.now + ATTEMPT_LIFETIME)
    else s
  }

  function PublishActivity(s: State, env: Env, a: Activity): (r: State)
    ensures r == s.(log := s.log.(notices := r.log.notices))
  {
    if Linked(s, env) && s.link.connection != ""
    then Send(s, ActivityPub(a.boot, a.sequence, a.active), env.now + 5 * SECOND)
    else s
  }

  // ---- retiring authority ----

  function InvalidatePositions(s: State): State {
    s.(source := s.source.(generation := s.source.generation + 1))
  }

  function ClearGrant(s: State): State {
    s.(consent := s.consent.(grant := None, grantAt := 0, grantTTL := 0, grantActive := false),
       source := s.source.(generation := s.source.generation + 1, lastPositionAt := 0, estimator := None))
  }

  function InvalidateAttempts(s: State): State {
    s.(journal := s.journal.(probes := map[], attempts := map[], used := map[], query := None))
  }

  function DropActivity(s: State): State {
    s.(consent := s.consent.(activity := None, activityAt := 0, challenges := map[]))
  }

  /** A contradiction or a veto from the journal: everything granted so far is void. */
  function Inhibit(s: State): State {
    var s1 := InvalidateAttempts(DropActivity(s));
    ClearGrant(s1.(journal := s1.journal.(ready := false, blocked := true, permit := None,
                                          epoch := s1.journal.epoch + 1)))
  }

  function ResetConnection(s: State, client: Option<nat>, connection: Id): State {
    var s1 := InvalidateAttempts(DropActivity(s));
    var s2 := s1.(link := s1.link.(client := client, connection := connection),
                  journal := s1.journal.(permit := None, ready := false, epoch := s1.journal.epoch + 1,
                                         state := None, blocked := false),
                  consent := s1.consent.(lastCleared := None, lastAuthority := None));
    ClearGrant(InvalidatePositions(s2))
  }

  function OnFailClosed(s: State): State {
    var s1 := InvalidateAttempts(DropActivity(s));
    var s2 := s1.(phase := Subscribing,
                  consent := s1.consent.(settingsReady := false),
                  journal := s1.journal.(permit := None, ready := false, blocked := true, state := None,
                                         epoch := s1.journal.epoch + 1));
    ClearGrant(InvalidatePositions(s2))
  }

  // ---- journal probes ----

  predicate ProbeStale(s: State, now: Time, p: Probe) {
    now > p.deadline || p.connection != s.link.connection || p.epoch != s.journal.epoch
  }

  function FreshProbes(s: State, now: Time): map<Id, Probe> {
    map c | c in s.journal.probes && !ProbeStale(s, now, s.journal.probes[c]) :: s.journal.probes[c]
  }

  function Since(times: seq<Time>, cutoff: Time): seq<Time> {
    if times == [] then []
    else if times[0] >= cutoff then [times[0]] + Since(times[1..], cutoff)
    else Since(times[1..], cutoff)
  }

  predicate ProbeAllowed(s: State, env: Env) {
    s.consent.settingsReady && Linked(s, env) && s.link.connection != ""
  }

  /** The probe that would be issued now, if the limits allow one and an identifier can be drawn. */
  predicate IssuesProbe(s: State, env: Env, id: Option<Id>) {
    && ProbeAllowed(s, env)
    && |FreshProbes(s, env.now)| == 0
    && |Since(s.journal.probeTimes, env.now - ATTEMPT_LIFETIME)| < 10
    && id.Some?
  }

  function NewProbe(s: State, env: Env, purpose: Purpose, query: Option<PreparedQuery>, id: Id): Probe {
    var deadline := env.now + ATTEMPT_LIFETIME;
    if query.None? then
      Probe(id, s.link.connection, env.now, deadline, purpose, "", 0, None, s.journal.epoch)
    else
      Probe(id, s.link.connection, env.now,
            if deadline > query.value.deadline then query.value.deadline else deadline,
            purpose, query.value.op, query.value.revision, Some(query.value.fence), s.journal.epoch)
  }

  function IssueProbe(s: State, env: Env, purpose: Purpose, query: Option<PreparedQuery>, id: Option<Id>): (r: State)
    ensures r == s.(journal := s.journal.(probes := r.journal.probes, probeTimes := r.journal.probeTimes),
            redis := r.redis, log := s.log.(queued := r.log.queued))
  {
    if !ProbeAllowed(s, env) then s
    else
      var recent := FreshProbes(s, env.now);
      var s1 := s.(journal := s.journal.(probes := recent));
      if |recent| >= 1 then s1
      else
        var s2 := s1.(journal := s1.journal.(probeTimes := Since(s.journal.probeTimes, env.now - ATTEMPT_LIFETIME)));
        if |s2.journal.probeTimes| >= 10 || id.None? then s2
        else
          var s3 := s2.(journal := s2.journal.(
                          probes := recent[id.value := NewProbe(s, env, purpose, query, id.value)],
                          probeTimes := s2.journal.probeTimes + [env.now]));
          QueueRedis(s3, env, ProbeMsg(id.value), ATTEMPT_LIFETIME)
  }

  function RequestReconciliation(s: State, env: Env, id: Option<Id>): (r: State)
    ensures r == s.(journal := s.journal.(probes := r.journal.probes, probeTimes := r.journal.probeTimes),
                    redis := r.redis, log := s.log.(queued := r.log.queued))
  {
    IssueProbe(s, env, Reconcile, None, id)
  }

  /** Removes the answered probe and remembers its answer, evicting one of more than ten. */
  function ConsumeProbe(s: State, answer: LocalStop, evict: Id): (r: State)
    ensures r == s.(journal := s.journal.(probes := r.journal.probes, used := r.journal.used))
  {
    var used := s.journal.used[answer.challenge := answer];
    s.(journal := s.journal.(
         probes := s.journal.probes - {answer.challenge},
         used := if |used| > 10 then used - {evict} else used))
  }

  // ---- stop requests ----

  predicate JournalNames(s: State, op: Id, revision: int) {
    s.journal.state.Some? && s.journal.state.value.op == Some(op) && s.journal.state.value.revision == revision
  }

  predicate AttemptLive(a: Attempt, now: Time) {
    !a.consumed && now < a.deadline
  }

  predicate CanSendStop(s: State, env: Env, op: Id, revision: int, expected: Option<int>, mode: StopMode) {
    && Linked(s, env) && s.link.connection != "" && JournalNames(s, op, revision) && s.journal.epoch != 0
    && (mode.Apply? ==>
          && s.journal.state.value.phase.Prepared?
          && s.journal.state.value.expected == expected
          && s.journal.state.value.committed.None?
          && expected.Some?)
    && (forall c | c in s.journal.attempts :: !AttemptLive(s.journal.attempts[c], env.now))
    && |s.journal.attempts| < 10
  }

  function StopDeadline(env: Env, deadline: Time): Time {
    if deadline == 0 || deadline > env.now + ATTEMPT_LIFETIME then env.now + ATTEMPT_LIFETIME else deadline
  }

  function SendStop(s: State, env: Env, op: Id, revision: int, expected: Option<int>, challenge: Id,
                    mode: StopMode, deadline: Time): (r: State)
    ensures r == s.(journal := s.journal.(attempts := r.journal.attempts), log := s.log.(stops := r.log.stops))
  {
    if !CanSendStop(s, env, op, revision, expected, mode) then s
    else
      var until := StopDeadline(env, deadline);
      var attempt := Attempt(op, revision, challenge, s.link.connection, env.now, mode, expected, until,
                             s.journal.epoch, false);
      Send(s.(journal := s.journal.(attempts := s.journal.attempts[challenge := attempt])),
           StopPub(op, expected, challenge, mode), until)
  }

  // ---- journal snapshots ----

  /** The snapshot answers an outstanding probe of this connection and IPC epoch, in time. */
  predicate AnswersProbe(s: State, env: Env, challenge: Id) {
    && challenge in s.journal.probes
    && Linked(s, env)
    && var p := s.journal.probes[challenge];
       p.issuedAt <= env.now <= p.deadline && p.connection == s.link.connection && p.epoch == s.journal.epoch
  }

  predicate AcceptsRevision(s: State, st: LocalStop) {
    s.journal.state.None? ||
    var prior := s.journal.state.value;
    st.revision > prior.revision ||
    (st.revision == prior.revision && st.phase == prior.phase && st.op == prior.op &&
     st.expected == prior.expected && st.committed == prior.committed && st.blocked == prior.blocked)
  }

  /** The step that takes the snapshot as the journal's state. */
  predicate TakesSnapshot(s: State, env: Env, st: LocalStop) {
    st.challenge !in s.journal.used && AnswersProbe(s, env, st.challenge) && AcceptsRevision(s, st)
  }

  function AdoptSnapshot(s: State, st: LocalStop, evict: Id): (r: State)
    ensures r == s.(journal := s.journal.(probes := s.journal.probes - {st.challenge}, used := r.journal.used,
                                          state := Some(st), blocked := st.blocked,
                                          ready := st.phase.Idle? && !st.blocked),
                    consent := r.consent, source := r.source)
  {
    var s1 := ConsumeProbe(s, st, evict);
    var s2 := s1.(journal := s1.journal.(state := Some(st), blocked := st.blocked,
                                         ready := st.phase.Idle? && !st.blocked));
    if st.blocked || !st.phase.Idle? then ClearGrant(s2) else s2
  }

  /** The snapshot contradicts what was answered before, or reports a stop nobody asked about. */
  predicate VetoedBySnapshot(s: State, env: Env, st: LocalStop) {
    if st.challenge in s.journal.used then s.journal.used[st.challenge] != st
    else if AnswersProbe(s, env, st.challenge) then !AcceptsRevision(s, st)
    else st.blocked || !st.phase.Idle?
  }

  function OnSnapshot(s: State, env: Env, st: LocalStop, evict: Id, id: Option<Id>): (r: State)
    ensures TakesSnapshot(s, env, st) ==>
              var a := AdoptSnapshot(s, st, evict);
              r == a.(journal := a.journal.(attempts := r.journal.attempts, query := r.journal.query,
                                            permit := r.journal.permit),
                      log := a.log.(notices := r.log.notices, stops := r.log.stops))
    ensures !TakesSnapshot(s, env, st) ==>
              var b := if VetoedBySnapshot(s, env, st) then Inhibit(s) else s;
              r == b.(journal := b.journal.(probes := r.journal.probes, probeTimes := r.journal.probeTimes,
                                            used := r.journal.used), redis := r.redis,
                                                log := b.log.(queued := r.log.queued))
  {
    if st.challenge in s.journal.used then
      if s.journal.used[st.challenge] != st then RequestReconciliation(Inhibit(s), env, id) else s
    else if !AnswersProbe(s, env, st.challenge) then
      RequestReconciliation(if st.blocked || !st.phase.Idle? then Inhibit(s) else s, env, id)
    else if !AcceptsRevision(s, st) then
      RequestReconciliation(ConsumeProbe(Inhibit(s), st, evict), env, id)
    else
      ActOnSnapshot(AdoptSnapshot(s, st, evict), env, st, s.journal.probes[st.challenge])
  }

  function ActOnSnapshot(s: State, env: Env, st: LocalStop, probe: Probe): (r: State)
    ensures r == s.(journal := s.journal.(attempts := r.journal.attempts, query := r.journal.query,
            permit := r.journal.permit), log := s.log.(notices := r.log.notices, stops := r.log.stops))
  {
    if probe.purpose.ApplyConfirmation? then ConfirmApply(s, env, st, probe)
    else match st.phase
      case Idle => if st.blocked then s else PublishQueuedActivity(s, env)
      case Preparing =>
        if st.op.Some? && st.expected.None? && st.committed.None? then
          var permit := Probe(st.challenge, probe.connection, probe.issuedAt, probe.deadline, OfferPermit,
                              st.op.value, st.revision, None, probe.epoch);
          PublishHello(s.(journal := s.journal.(permit := Some(permit))), env, Some(st.challenge))
        else s
      case Prepared =>
        if st.op.Some? && st.expected.Some? && st.committed.None? then
          var q := PreparedQuery(st.op.value, st.revision, st.expected.value, s.link.connection,
                                 s.journal.epoch, probe.deadline, st.challenge);
          SendStop(s.(journal := s.journal.(query := Some(q))), env, st.op.value, st.revision, st.expected,
                   st.challenge, Query, probe.deadline)
        else s
      case Uncertain =>
        if st.op.Some? then
          SendStop(s, env, st.op.value, st.revision, st.expected, st.challenge, Query, probe.deadline)
        else s
      case Confirmed => s
  }

  function PublishQueuedActivity(s: State, env: Env): (r: State)
    ensures r == s.(log := s.log.(notices := r.log.notices))
  {
    if s.consent.activity.Some? && s.journal.ready && !s.consent.blocked && !s.journal.blocked
    then PublishActivity(s, env, s.consent.activity.value)
    else s
  }

  /** The confirmation answers the pending query with the very journal state the query was about. */
  predicate Confirms(s: State, env: Env, st: LocalStop, probe: Probe) {
    && s.journal.query.Some? && st.op.Some?
    && var q := s.journal.query.value;
       && probe.purpose.ApplyConfirmation?
       && probe.connection == s.link.connection && probe.epoch == s.journal.epoch
       && env.now < probe.deadline && env.now < q.deadline
       && q.op == st.op.value && q.revision == st.revision && st.phase.Prepared?
       && st.expected == Some(q.fence) && st.committed.None?
       && q.connection == s.link.connection && q.epoch == s.journal.epoch
  }

  function ConfirmApply(s: State, env: Env, st: LocalStop, probe: Probe): (r: State)
    ensures r == s.(journal := s.journal.(attempts := r.journal.attempts, query := r.journal.query),
            log := s.log.(stops := r.log.stops))
  {
    if !Confirms(s, env, st, probe) then s.(journal := s.journal.(query := None))
    else
      var q := s.journal.query.value;
      if CanSendStop(s, env, q.op, q.revision, Some(q.fence), Apply) then
        var s1 := SendStop(s, env, q.op, q.revision, Some(q.fence), probe.challenge, Apply, q.deadline);
        s1.(journal := s1.journal.(query := None))
      else s
  }

  // ---- activity ----

  predicate ConsentOpen(s: State) {
    && s.consent.settingsReady && s.journal.ready && !s.consent.blocked && !s.journal.blocked
    && s.journal.state.Some? && s.journal.state.value.phase.Idle?
  }

  predicate AcceptsActivity(s: State, env: Env, a: Activity) {
    && ConsentOpen(s) && Linked(s, env)
    && !(a.boot == s.consent.boot && a.sequence <= s.consent.bootSeq)
    && a.challenge !in s.consent.challenges
    && (a.active && s.consent.activity.Some? && s.consent.activity.value.session.Some? ==>
          a.session == s.consent.activity.value.session && a.member == s.consent.activity.value.member)
    && (a.active && s.consent.activityAt != 0 ==> env.now - s.consent.activityAt >= SECOND)
  }

  /** Drops challenges that are too old and then, of ten or more, one that is oldest. */
  function PruneChallenges(m: map<Id, Time>, now: Time, victim: Id): map<Id, Time> {
    var recent := map c | c in m && now - m[c] < LEASE_DURATION :: m[c];
    if |recent| >= 10 then recent - {victim} else recent
  }

  function SameBinding(grant: Option<Control>, a: Activity): bool {
    grant.Some? && grant.value.session.Some? && a.session.Some? &&
    grant.value.session == a.session && grant.value.member == a.member
  }

  function OnActivity(s: State, env: Env, a: Activity, victim: Id): State {
    if !AcceptsActivity(s, env, a) then s
    else
      var s1 := s.(consent := s.consent.(activity := Some(a), boot := a.boot, bootSeq := a.sequence,
                                         activityAt := env.now));
      var s2 := if !a.active then ClearGrant(s1) else s1;
      var s3 := s2.(consent := s2.consent.(
                      grantActive := s2.consent.grantActive || SameBinding(s2.consent.grant, a),
                      challenges := PruneChallenges(s2.consent.challenges[a.challenge := env.now], env.now, victim)));
      PublishActivity(PublishHello(s3, env, Some(a.challenge)), env, a)
  }

  // ---- server controls ----

  predicate ActivityFresh(s: State, now: Time) {
    s.consent.activity.Some? && s.consent.activity.value.active &&
    0 <= now - s.consent.activityAt < LEASE_DURATION
  }

  predicate Grantable(s: State, env: Env) {
    ConsentOpen(s) && ActivityFresh(s, env.now)
  }

  predicate ChallengeCurrent(s: State, env: Env, challenge: Id) {
    challenge in s.consent.challenges && 0 <= env.now - s.consent.challenges[challenge] < LEASE_DURATION
  }

  /** `c` would move authority back from `prior`, or rename its stream within one epoch. */
  predicate Regresses(c: Control, prior: Control) {
    c.epoch < prior.epoch || c.revision < prior.revision || c.consent < prior.consent ||
    (c.epoch == prior.epoch && c.stream != prior.stream)
  }

  predicate AcceptsGrant(s: State, env: Env, c: Control) {
    && Linked(s, env) && c.nonce == s.link.connection && (c.action.Grant? || c.action.Renew?)
    && ChallengeCurrent(s, env, c.challenge) && Grantable(s, env)
    && c.session.Some? && c.member.Some?
    && (var a := s.consent.activity.value;
        a.session.Some? ==> a.session == c.session && a.member == c.member)
    && (s.consent.lastCleared.Some? && s.consent.lastCleared.value.session == c.session ==>
          c.epoch > s.consent.lastCleared.value.epoch && c.revision >= s.consent.lastCleared.value.revision)
    && (s.consent.lastAuthority.Some? && s.consent.lastAuthority.value.session == c.session ==>
          !Regresses(c, s.consent.lastAuthority.value))
    && (s.consent.grant.Some? ==>
          && s.consent.grant.value.session == c.session && s.consent.grant.value.member == c.member
          && !Regresses(c, s.consent.grant.value))
    && c.ttlMs * MILLISECOND > env.now - s.consent.challenges[c.challenge]
  }

  predicate StartsStream(s: State, c: Control) {
    s.consent.grant.None? || c.stream != s.consent.grant.value.stream || c.epoch != s.consent.grant.value.epoch
  }

  function BeginStream(s: State): State {
    s.(source := s.source.(
         sequence := 0, generation := s.source.generation + 1,
         closed := s.source.closed && !s.source.fixPending, fixPending := false))
  }

  function InstallGrant(s: State, env: Env, c: Control): (r: State)
    requires AcceptsGrant(s, env, c) && c.cadenceMs.Some?
    ensures r == s.(consent := r.consent, source := r.source, peers := r.peers, redis := r.redis,
            log := s.log.(feed := r.log.feed, queued := r.log.queued))
    ensures r.consent == s.consent.(
              grant := Some(c), lastAuthority := Some(c), lastCleared := None, grantAt := env.now,
              grantTTL := c.ttlMs * MILLISECOND - (env.now - s.consent.challenges[c.challenge]),
              grantActive := r.consent.grantActive, cadence := r.consent.cadence)
    ensures r.peers == SetReplayScope(s.peers, c)
  {
    var s1 := if StartsStream(s, c) then BeginStream(s) else s;
    var s2 := HoldGrant(s1, env, c);
    var s3 := s2.(peers := SetReplayScope(s2.peers, c));
    var s4 := if s3.source.closed then PublishNoFix(s3, env) else s3;
    QueueRedis(s4, env, ControlMsg(c), LEASE_DURATION - (env.now - s.consent.challenges[c.challenge]))
  }

  /** The lease runs from the registration of the challenge, not from the arrival of the grant. */
  function HoldGrant(s: State, env: Env, c: Control): State
    requires c.challenge in s.consent.challenges && s.consent.activity.Some? && c.cadenceMs.Some?
  {
    var a := s.consent.activity.value;
    var cadence := c.cadenceMs.value * MILLISECOND;
    s.(consent := s.consent.(
         grant := Some(c), lastAuthority := Some(c), lastCleared := None,
         grantAt := env.now, grantTTL := c.ttlMs * MILLISECOND - (env.now - s.consent.challenges[c.challenge]),
         grantActive := a.session.Some? && a.session == c.session && a.member == c.member,
         cadence := if cadence < SECOND then SECOND else cadence))
  }

  function SetReplayScope(p: Peers, c: Control): Peers
    requires c.session.Some?
  {
    var streams := if p.scope != c.session.value then map[] else p.streams;
    Peers(c.session.value, map id | id in streams && id in c.peers :: streams[id])
  }

  /** The held grant lets this clear retire it. */
  predicate ClearsGrant(s: State, env: Env, c: Control) {
    && Linked(s, env) && c.nonce == s.link.connection && c.action.Clear? && s.consent.grant.Some?
    && s.consent.grant.value.session == c.session && s.consent.grant.value.member == c.member
    && !Regresses(c, s.consent.grant.value)
  }

  function OnClear(s: State, env: Env, c: Control): (r: State)
    ensures r == s.(consent := r.consent, source := r.source, redis := r.redis, log := s.log.(queued := r.log.queued))
  {
    if s.consent.grant.Some? then
      if !ClearsGrant(s, env, c) then s
      else
        var s1 := ClearGrant(s.(consent := s.consent.(lastCleared := Some(c))));
        QueueRedis(DropActivity(s1), env, ControlMsg(c), 0)
    else if s.journal.blocked then s
    else QueueRedis(s.(consent := s.consent.(challenges := map[])), env, ControlMsg(c), 0)
  }

  function OnControl(s: State, env: Env, c: Control, id: Option<Id>): State
    requires ValidControl(c)
  {
    if !Linked(s, env) || c.nonce != s.link.connection then s
    else match c.action
      case Status =>
        if c.stopResult.Some? then OnStopStatus(s, env, c, id)
        else QueueRedis(MaybeOffer(s, env, c), env, ControlMsg(c), ATTEMPT_LIFETIME)
      case Clear => OnClear(s, env, c)
      case Grant => if AcceptsGrant(s, env, c) then InstallGrant(s, env, c) else s
      case Renew => if AcceptsGrant(s, env, c) then InstallGrant(s, env, c) else s
  }

  predicate Offers(s: State, env: Env, c: Control) {
    && s.journal.permit.Some?
    && var p := s.journal.permit.value;
       && p.connection == s.link.connection && p.epoch == s.journal.epoch && env.now <= p.deadline
       && c.challenge == p.challenge && c.stopResult.None?
       && JournalNames(s, p.op, p.revision) && s.journal.state.value.phase.Preparing?
  }

  function MaybeOffer(s: State, env: Env, c: Control): (r: State)
    ensures r == s.(journal := s.journal.(permit := r.journal.permit), redis := r.redis,
            log := s.log.(queued := r.log.queued))
  {
    if !Offers(s, env, c) then s
    else
      var p := s.journal.permit.value;
      QueueRedis(s.(journal := s.journal.(permit := None)), env,
                 ResultMsg(p.op, p.revision, p.challenge, s.link.connection, Offer, Some(c.consent), None),
                 p.deadline - env.now)
  }

  /** The reply belongs to an unanswered attempt of this connection and IPC epoch, in time. */
  predicate AnswersAttempt(s: State, env: Env, c: Control) {
    && c.challenge in s.journal.attempts
    && var t := s.journal.attempts[c.challenge];
       && !t.consumed && t.connection == s.link.connection && t.epoch == s.journal.epoch
       && env.now <= t.deadline && c.stopOp == Some(t.op)
  }

  /** The reply contradicts the journal or the fence the attempt was sent with. */
  predicate ContradictsAttempt(s: State, c: Control, t: Attempt) {
    || !JournalNames(s, t.op, t.revision)
    || (t.mode.Apply? && (!s.journal.state.value.phase.Prepared? || s.journal.state.value.expected != t.fence))
    || (c.stopResult == Some(Committed) && t.fence.Some? && c.stopExpected != t.fence)
  }

  /** The attempt is the pending query and the journal still is in the state it was sent for. */
  predicate QueryPending(s: State, env: Env, t: Attempt) {
    && s.journal.query.Some?
    && var q := s.journal.query.value;
       && q.op == t.op && q.revision == t.revision && t.fence == Some(q.fence)
       && q.connection == s.link.connection && q.epoch == s.journal.epoch && q.queryChallenge == t.challenge
       && q.deadline == t.deadline && env.now < q.deadline
       && JournalNames(s, q.op, q.revision) && s.journal.state.value.phase.Prepared?
       && s.journal.state.value.expected == Some(q.fence)
  }

  function ForwardResult(s: State, env: Env, c: Control, t: Attempt): State
    requires c.stopResult.Some?
  {
    var committed := if c.stopResult.value.Committed? || c.stopResult.value.Superseded?
        || c.stopResult.value.Unconfirmed?
                     then Some(c.consent) else None;
    QueueRedis(s, env,
               ResultMsg(t.op, t.revision, t.challenge, t.connection, Outcome(c.stopResult.value), c.stopExpected,
                   committed),
               t.deadline - env.now)
  }

  /** A reply that is forwarded, that is, neither ignored nor contradictory. */
  predicate ForwardsReply(s: State, env: Env, c: Control) {
    AnswersAttempt(s, env, c) && !ContradictsAttempt(s, c, s.journal.attempts[c.challenge])
  }

  /** A `not_found` reply to the pending query asks for the confirmation probe. */
  predicate WantsConfirmation(s: State, env: Env, c: Control) {
    && ForwardsReply(s, env, c) && s.journal.attempts[c.challenge].mode.Query?
    && c.stopResult == Some(NotFound) && QueryPending(s, env, s.journal.attempts[c.challenge])
  }

  function MarkConsumed(s: State, challenge: Id): State
    requires challenge in s.journal.attempts
  {
    var consumed := s.journal.attempts[challenge].(consumed := true);
    s.(journal := s.journal.(attempts := s.journal.attempts[challenge := consumed]))
  }

  function OnStopStatus(s: State, env: Env, c: Control, id: Option<Id>): (r: State)
    requires c.stopResult.Some?
    ensures r == if AnswersAttempt(s, env, c) && !ForwardsReply(s, env, c) then Inhibit(s)
                 else s.(journal := s.journal.(probes := r.journal.probes, probeTimes := r.journal.probeTimes,
                                               attempts := r.journal.attempts, query := r.journal.query),
                         redis := r.redis, log := s.log.(queued := r.log.queued))
  {
    if !AnswersAttempt(s, env, c) then s
    else
      var t := s.journal.attempts[c.challenge];
      if ContradictsAttempt(s, c, t) then Inhibit(s)
      else
        var s1 := ForwardResult(MarkConsumed(s, c.challenge), env, c, t);
        if WantsConfirmation(s, env, c) then
          var s2 := IssueProbe(s1, env, ApplyConfirmation, s1.journal.query, id);
          if IssuesProbe(s1, env, id) then s2 else s2.(journal := s2.journal.(query := None))
        else if t.mode.Apply? then s1.(journal := s1.journal.(query := None))
        else s1
  }

  // ---- peers ----

  /** The held grant is in force: consent, lease, activity and connection all hold now. */
  predicate GrantCurrent(s: State, env: Env) {
    && ConsentOpen(s) && Linked(s, env)
    && s.consent.grant.Some? && s.consent.grantActive && s.consent.grantAt != 0
    && 0 <= env.now - s.consent.grantAt < s.consent.grantTTL
    && ActivityFresh(s, env.now)
  }

  predicate ReceiverCurrent(s: State, env: Env, session: Id, revision: int, epoch: int, stream: Id) {
    && GrantCurrent(s, env)
    && var g := s.consent.grant.value;
       g.session == Some(session) && g.stream == Some(stream) && g.revision == revision && g.epoch == epoch
  }

  predicate AcceptsPeer(s: State, env: Env, p: PeerPosition) {
    && ReceiverCurrent(s, env, p.session, p.revision, p.epoch, p.stream) && p.peer in s.consent.grant.value.peers
    && (p.peer in s.peers.streams ==>
          var prior := s.peers.streams[p.peer];
          && p.peerEpoch >= prior.epoch
          && (p.peerEpoch == prior.epoch ==>
                p.peerStream == prior.stream && !prior.closed && p.sequence > prior.sequence
                    && p.captured > prior.captured))
  }

  function OnPeer(s: State, env: Env, p: PeerPosition): State {
    if !AcceptsPeer(s, env, p) then s
    else
      var stream := PeerStream(p.peerStream, p.peerEpoch, p.sequence, p.captured, false);
      QueueRedis(s.(peers := s.peers.(streams := s.peers.streams[p.peer := stream])), env, PeerMsg(p), SECOND)
  }

  predicate AcceptsPeerStatus(s: State, env: Env, p: PeerStatus) {
    && ReceiverCurrent(s, env, p.session, p.revision, p.epoch, p.stream) && p.peer in s.consent.grant.value.peers
    && (p.peer in s.peers.streams ==>
          var prior := s.peers.streams[p.peer];
          p.peerEpoch > prior.epoch || (p.peerEpoch == prior.epoch && p.peerStream == prior.stream))
  }

  /** Every status the protocol knows (`no_fix`, `inactive`, `cleared`) closes the peer's stream. */
  function OnPeerStatus(s: State, env: Env, p: PeerStatus): State {
    if !AcceptsPeerStatus(s, env, p) then s
    else
      var prior := if p.peer in s.peers.streams && p.peerEpoch == s.peers.streams[p.peer].epoch
                   then s.peers.streams[p.peer]
                   else PeerStream(p.peerStream, p.peerEpoch, 0, 0, false);
      QueueRedis(s.(peers := s.peers.(streams := s.peers.streams[p.peer := prior.(closed := true)])), env,
                 PeerStatusMsg(p), SECOND)
  }

  // ---- GPS source ----

  predicate ActivityMatchesGrant(s: State) {
    && s.consent.activity.Some? && s.consent.activity.value.session.Some? && s.consent.activity.value.member.Some?
    && s.consent.grant.Some?
    && s.consent.activity.value.session == s.consent.grant.value.session
    && s.consent.activity.value.member == s.consent.grant.value.member
  }

  function StatusFor(s: State, g: Control, state: SourceState, captured: Option<int>): SourceStatus
    requires Bound(g)
  {
    SourceStatus(s.link.connection, g.session.value, g.member.value, g.revision, g.epoch, g.stream.value,
                 s.source.sequence + 1, state, captured)
  }

  function StatusTime(status: SourceStatus): Time {
    if status.captured.Some? then FromUnixMilli(status.captured.value) else 0
  }

  function PublishStatus(s: State, env: Env, status: SourceStatus): (r: State)
    ensures r == s.(source := r.source, log := s.log.(feed := r.log.feed))
  {
    if !EncodableStatus(status) then s
    else
      var s1 := s.(source := s.source.(status := Some(status), statusGeneration := s.source.statusGeneration + 1,
                                       retryAt := env.now + STATUS_RETRY, sequence := status.sequence));
      Send(s1, StatusPub(status.state, status.sequence, StatusTime(status), s1.source.statusGeneration),
          env.now + 5 * SECOND)
  }

  function PublishNoFix(s: State, env: Env): (r: State)
    ensures r == s.(source := r.source, log := s.log.(feed := r.log.feed))
  {
    if s.source.closed && s.consent.grant.Some? && Bound(s.consent.grant.value)
    then PublishStatus(s, env, StatusFor(s, s.consent.grant.value, NoFix, None))
    else s
  }

  predicate StatusAllowed(s: State, env: Env) {
    GrantCurrent(s, env) && ActivityMatchesGrant(s) && Bound(s.consent.grant.value)
  }

  /** The `fix_available` status for a fix captured at `captured` can be queued. */
  predicate AnnouncesFix(s: State, env: Env, captured: Time) {
    && StatusAllowed(s, env) && captured != 0 && 0 <= env.now - captured <= FIX_LIFETIME
    && EncodableStatus(StatusFor(s, s.consent.grant.value, FixAvailable, Some(UnixMilli(captured))))
  }

  function AnnounceFix(s: State, env: Env, captured: Time): (r: State)
    ensures r == s.(source := r.source, log := s.log.(feed := r.log.feed))
  {
    if !AnnouncesFix(s, env, captured) then s
    else
      var s1 := PublishStatus(s, env, StatusFor(s, s.consent.grant.value, FixAvailable, Some(UnixMilli(captured))));
      s1.(source := s1.source.(fixPending := true, recoveryAfter := captured))
  }

  predicate RetriesStatus(s: State, env: Env) {
    && s.source.status.Some? && GrantCurrent(s, env) && ActivityMatchesGrant(s) && env.now >= s.source.retryAt
    && EncodableStatus(s.source.status.value)
    && var st := s.source.status.value;
       (st.state.FixAvailable? ==>
          st.captured.Some? && 0 <= env.now - FromUnixMilli(st.captured.value) <= FIX_LIFETIME)
  }

  /** Queues the latest status once more, unchanged. */
  function RetryStatus(s: State, env: Env): (r: State)
    ensures r == s.(source := r.source, log := s.log.(feed := r.log.feed))
  {
    if !RetriesStatus(s, env) then s
    else
      var st := s.source.status.value;
      var s1 := s.(source := s.source.(retryAt := env.now + STATUS_RETRY));
      Send(s1, StatusPub(st.state, st.sequence, StatusTime(st), s.source.statusGeneration), env.now + 5 * SECOND)
  }

  function ResetEstimator(s: State): State {
    s.(source := s.source.(estimator := None))
  }

  /** The source is closed already and its last status does not announce a fix: only retry. */
  predicate CloseIsRetry(s: State) {
    s.source.closed && (s.source.status.None? || !s.source.status.value.state.FixAvailable?)
  }

  function CloseSource(s: State, env: Env): (r: State)
    ensures r == s.(source := r.source, log := s.log.(feed := r.log.feed))
  {
    if CloseIsRetry(s) then RetryStatus(s, env)
    else
      var s1 := s.(source := s.source.(closed := true, fixPending := false, recoveryAfter := 0));
      var s2 := ResetEstimator(InvalidatePositions(s1));
      if StatusAllowed(s2, env) then PublishStatus(s2, env, StatusFor(s2, s2.consent.grant.value, NoFix, None)) else s2
  }

  function LoseFix(s: State, env: Env): (r: State)
    ensures r == s.(source := r.source, log := s.log.(feed := r.log.feed))
  {
    CloseSource(ResetEstimator(InvalidatePositions(s)), env)
  }

  /** A GPS message that closes the source: no usable timestamp, no valid fix, or a stale one. */
  predicate LosesFix(s: State, env: Env, captured: Option<Time>, fixOk: bool) {
    captured.None? || captured.value > env.now || !fixOk ||
    (captured.value > s.source.observedAt && env.now - captured.value > FIX_LIFETIME)
  }

  predicate QueuesPosition(s: State, env: Env, captured: Time) {
    && GrantCurrent(s, env) && ActivityMatchesGrant(s) && Bound(s.consent.grant.value)
    && 0 <= env.now - captured <= FIX_LIFETIME
    && (s.source.lastPositionAt != 0 ==> env.now - s.source.lastPositionAt >= s.consent.cadence)
    && SafePositive(s.source.sequence + 1) && SafePositive(UnixMilli(captured))
  }

  function QueuePosition(s: State, env: Env, captured: Time): (r: State)
    ensures r == s.(source := r.source, log := s.log.(feed := r.log.feed))
  {
    if !QueuesPosition(s, env, captured) then s
    else
      var g := s.consent.grant.value;
      var s1 := Send(s, PositionPub(g.session.value, g.member.value, g.stream.value, g.revision, g.epoch,
                                    s.source.generation, captured, s.source.sequence + 1), env.now + 5 * SECOND);
      s1.(source := s1.source.(sequence := s.source.sequence + 1, lastPositionAt := env.now))
  }

  function OnFix(s: State, env: Env, captured: Time): (r: State)
    ensures r == s.(source := r.source, log := s.log.(feed := r.log.feed))
  {
    if s.source.closed then
      if s.source.fixPending && s.source.status.Some? && s.source.status.value.captured.Some? &&
         env.now - FromUnixMilli(s.source.status.value.captured.value) <= FIX_LIFETIME
      then RetryStatus(s, env)
      else AnnounceFix(s, env, captured)
    else if s.source.estimator.Some? && captured <= s.source.estimator.value then
      ResetEstimator(InvalidatePositions(s))
    else
      QueuePosition(s.(source := s.source.(estimator := Some(captured))), env, captured)
  }

  function OnGps(s: State, env: Env, captured: Option<Time>, fixOk: bool): (r: State)
    ensures r == s.(source := r.source, log := s.log.(feed := r.log.feed))
  {
    if captured.None? || captured.value > env.now then LoseFix(s, env)
    else if captured.value <= s.source.observedAt then (if fixOk then s else LoseFix(s, env))
    else
      var s1 := s.(source := s.source.(observedAt := captured.value));
      if !fixOk || env.now - captured.value > FIX_LIFETIME then LoseFix(s1, env)
      else OnFix(s1, env, captured.value)
  }

  // ---- clock tick ----

  function ExpireLease(s: State, now: Time): State {
    var s1 := if s.consent.activity.Some? &&
                 (now - s.consent.activityAt >= LEASE_DURATION || now < s.consent.activityAt)
              then ClearGrant(DropActivity(s)) else s;
    var s2 := if s1.consent.grant.Some? &&
                 (now < s1.consent.grantAt || now - s1.consent.grantAt >= s1.consent.grantTTL)
              then ClearGrant(s1) else s1;
    s2.(journal := s2.journal.(
          probes := FreshProbes(s2, now),
          attempts := map c | c in s2.journal.attempts && !AttemptStale(s2, now, s2.journal.attempts[c])
                      :: s2.journal.attempts[c]))
  }

  predicate AttemptStale(s: State, now: Time, a: Attempt) {
    now > a.deadline || a.connection != s.link.connection || a.epoch != s.journal.epoch
  }

  function OnTick(s: State, env: Env): State {
    RetryStatus(ExpireLease(s, env.now), env)
  }

  // ---- connection and settings ----

  predicate BeginsConnect(s: State, env: Env, client: nat) {
    env.up && !(s.link.client == Some(client) && s.link.connection != "") && !s.link.connecting
  }

  function OnConnectBegin(s: State, env: Env, client: nat): State {
    if BeginsConnect(s, env, client)
    then s.(link := s.link.(connecting := true, attempt := s.link.attempt + 1))
    else s
  }

  /**
   The end of a connection attempt. `connection` is None when no nonce was drawn, subscribing failed, or the
   client was found disconnected; that is looked at before the lock is taken, so the client can be down again.
   */
  function OnConnectFinish(s: State, env: Env, client: nat, attempt: nat, connection: Option<Id>,
                           hello: Option<Id>, id: Option<Id>): State
  {
    if s.link.attempt != attempt then s
    else
      var s1 := s.(link := s.link.(connecting := false));
      if connection.None? then s1
      else
        var s2 := PublishHello(ResetConnection(s1, Some(client), connection.value), env, hello);
        IssueProbe(s2, env, Reconcile, None, id)
  }

  function OnDisconnected(s: State, client: nat): State {
    if s.link.client == Some(client) || s.link.connecting then
      var s1 := s.(link := s.link.(attempt := s.link.attempt + 1, connecting := false));
      if s.link.client == Some(client) then ResetConnection(s1, None, "") else s1
    else s
  }

  function OnRecoveryBegin(s: State): State {
    s.(phase := Recovering, consent := s.consent.(settingsReady := false))
  }

  function OnRecoveryDone(s: State, env: Env, id: Option<Id>): State {
    IssueProbe(s.(phase := Serving), env, Reconcile, None, id)
  }

  /** Settings have become readable again: greet the server and ask for the journal. */
  function AnnounceReady(s: State, env: Env, hello: Option<Id>, id: Option<Id>): (r: State)
    ensures r == s.(journal := s.journal.(probes := r.journal.probes, probeTimes := r.journal.probeTimes),
                    redis := r.redis, log := s.log.(notices := r.log.notices, queued := r.log.queued))
  {
    if Linked(s, env) then IssueProbe(PublishHello(s, env, hello), env, Reconcile, None, id) else s
  }

  /** The rider's block was switched on or off: start over. */
  function InhibitBySettings(s: State, env: Env, id: Option<Id>): (r: State)
    ensures var b := Inhibit(s);
            r == b.(journal := b.journal.(epoch := b.journal.epoch + 1, probes := r.journal.probes,
                                          probeTimes := r.journal.probeTimes),
                    redis := r.redis, log := s.log.(queued := r.log.queued))
  {
    RequestReconciliation(StartOver(s), env, id)
  }

  function StartOver(s: State): State {
    var s1 := InvalidateAttempts(Inhibit(s));
    s1.(journal := s1.journal.(epoch := s1.journal.epoch + 1))
  }

  function OnRefresh(s: State, env: Env, blocked: bool, hello: Option<Id>, first: Option<Id>,
      second: Option<Id>): State {
    var s1 := s.(consent := s.consent.(blocked := blocked, settingsReady := true));
    var s2 := if !s.consent.settingsReady then AnnounceReady(s1, env, hello, first) else s1;
    if blocked || s.consent.blocked then InhibitBySettings(s2, env, second) else s2
  }

  // ---- the two later boundaries ----

  /** Authority checked again when the live worker, and later the socket writer, handles `pub`. */
  predicate Authorized(s: State, env: Env, pub: MqttPub) {
    match pub
    case HelloPub(_) => s.consent.settingsReady && Linked(s, env)
    case ActivityPub(boot, activitySeq, active) =>
      && ConsentOpen(s) && Linked(s, env) && s.consent.activity.Some?
      && s.consent.activity.value.boot == boot && s.consent.activity.value.sequence == activitySeq
      && s.consent.activity.value.active == active
      && 0 <= env.now - s.consent.activityAt < LEASE_DURATION
    case PositionPub(session, member, stream, revision, epoch, generation, captured, _) =>
      && GrantCurrent(s, env) && ActivityMatchesGrant(s) && !s.source.closed && generation == s.source.generation
      && 0 <= env.now - captured <= FIX_LIFETIME
      && var g := s.consent.grant.value;
         && g.session == Some(session) && g.member == Some(member) && g.stream == Some(stream)
         && g.revision == revision && g.epoch == epoch
    case StatusPub(state, statusSeq, statusCaptured, statusGeneration) =>
      && GrantCurrent(s, env) && ActivityMatchesGrant(s) && s.source.status.Some?
      && var st := s.source.status.value;
         var g := s.consent.grant.value;
         && statusGeneration == s.source.statusGeneration && statusSeq == st.sequence && state == st.state
         && g.session == Some(st.session) && g.member == Some(st.member) && g.stream == Some(st.stream)
         && g.revision == st.revision && g.epoch == st.epoch && st.nonce == s.link.connection
         && (if st.state.NoFix? then s.source.closed
             else st.captured.Some? && 0 <= env.now - statusCaptured <= FIX_LIFETIME)
    case StopPub(_, _, challenge, _) =>
      && challenge in s.journal.attempts
      && var t := s.journal.attempts[challenge];
         && !t.consumed && t.connection == s.link.connection && t.epoch == s.journal.epoch
         && t.startedAt <= env.now <= t.deadline && JournalNames(s, t.op, t.revision)
         && s.journal.state.value.expected == t.fence
         && (if t.mode.Apply? then s.journal.state.value.phase.Prepared? && s.journal.state.value.committed.None?
             else s.journal.state.value.phase.Prepared? || s.journal.state.value.phase.Uncertain?)
  }

  /** The lease time that is left for a control at the Redis boundary, in nanoseconds. */
  function RemainingLease(s: State, now: Time, c: Control, queuedAt: Time): int {
    var held := s.consent.grantTTL - (now - s.consent.grantAt);
    var queued := c.ttlMs * MILLISECOND - (now - queuedAt);
    if queued < held then queued else held
  }

  /** Go's truncating conversion of a duration. */
  function Milliseconds(d: int): int {
    if d >= 0 then d / MILLISECOND else -((-d) / MILLISECOND)
  }

  /** The message that may still be published to Redis, rewritten to what is left of its validity. */
  function FinalRedis(s: State, env: Env, p: RedisPub): Option<RedisMsg> {
    if !s.consent.settingsReady || !Linked(s, env) then None
    else match p.msg
      case ProbeMsg(challenge) =>
        if challenge in s.journal.probes &&
           (var q := s.journal.probes[challenge];
            q.connection == s.link.connection && q.epoch == s.journal.epoch && q.issuedAt <= env.now < q.deadline)
        then Some(p.msg) else None
      case ResultMsg(op, revision, _, nonce, result, _, _) =>
        if nonce == s.link.connection && JournalNames(s, op, revision) &&
           (if result.Offer? then s.journal.state.value.phase.Preparing?
            else s.journal.state.value.phase.Prepared? || s.journal.state.value.phase.Uncertain?)
        then Some(p.msg) else None
      case ControlMsg(c) =>
        if c.nonce != s.link.connection then None
        else if c.action.Grant? || c.action.Renew? then
          if Grantable(s, env) && s.consent.grant.Some? && s.consent.grantAt != 0 &&
             0 <= env.now - s.consent.grantAt < s.consent.grantTTL &&
             (var g := s.consent.grant.value;
              g.session == c.session && g.member == c.member && g.stream == c.stream &&
              g.revision == c.revision && g.epoch == c.epoch && g.consent == c.consent)
          then
            var ttl := RemainingLease(s, env.now, c, p.queuedAt);
            if ttl >= MILLISECOND then Some(ControlMsg(c.(ttlMs := ttl / MILLISECOND))) else None
          else None
        else if c.action.Clear? && s.consent.grant.Some? then None
        else Some(p.msg)
      case PeerMsg(v) =>
        if ReceiverCurrent(s, env, v.session, v.revision, v.epoch, v.stream) && v.peer in s.peers.streams &&
           s.peers.streams[v.peer] == PeerStream(v.peerStream, v.peerEpoch, v.sequence, v.captured, false) &&
           0 <= Milliseconds(env.now - p.queuedAt) < v.validFor
        then Some(PeerMsg(v.(validFor := v.validFor - Milliseconds(env.now - p.queuedAt))))
        else None
      case PeerStatusMsg(v) =>
        if ReceiverCurrent(s, env, v.session, v.revision, v.epoch, v.stream) && v.peer in s.peers.streams &&
           (var w := s.peers.streams[v.peer]; w.closed && w.epoch == v.peerEpoch && w.stream == v.peerStream)
        then Some(p.msg) else None
  }

  function OnRedisTake(s: State): State {
    if s.redis.inflight.None? && s.redis.queue != []
    then s.(redis := s.redis.(queue := s.redis.queue[1..], inflight := Some(s.redis.queue[0])))
    else s
  }

  function OnRedisDeliver(s: State, env: Env): State {
    if s.redis.inflight.None? then s
    else
      var p := s.redis.inflight.value;
      var s1 := s.(redis := s.redis.(inflight := None));
      if p.expiresAt != 0 && env.now >= p.expiresAt then s1
      else
        var final := FinalRedis(s, env, p);
        if final.Some? then s1.(log := s1.log.(published := s1.log.published + [Published(final.value, p.serial)]))
            else s1
  }
}
