/**
 The feed of positions and source statuses, from the other side: exactly when a fix is queued as a position,
 announces the source, closes it or changes nothing, and how far positions are apart.
 */
module FeedResponses {
  import opened Basics
  import opened Messages
  import opened AdapterModel
  import opened AdapterRuns
  import opened ConsentProofs
  import opened Vocabulary
  import opened ReplyResponses
  import opened ConsentResponses

  // ---- what may be sent ----

  /** Positions and statuses may be sent: the grant is in force, and the rider rides for it. */
  predicate MaySend(s: State, env: Env) {
    InForce(s, env) && RidesForGrant(s) && Bound(s.consent.grant.value)
  }

  /** The next status of the source, as it is numbered for the held grant. */
  function NextStatus(s: State, state: SourceState, captured: Option<int>): SourceStatus
    requires s.consent.grant.Some? && Bound(s.consent.grant.value)
  {
    var g := s.consent.grant.value;
    SourceStatus(s.link.connection, g.session.value, g.member.value, g.revision, g.epoch, g.stream.value,
                 s.source.sequence + 1, state, captured)
  }

  /** `status` becomes the latest one, is queued for five seconds, and will be repeated in three. */
  predicate Publishes(s: State, t: State, env: Env, status: SourceStatus) {
    && t.source.status == Some(status) && t.source.sequence == status.sequence
    && t.source.statusGeneration == s.source.statusGeneration + 1 && t.source.retryAt == env.now + 3 * SECOND
    && t.log.feed == s.log.feed + Once(s, true, Named(status, s.source.statusGeneration + 1), env.now + 5 * SECOND)
  }

  function Named(st: SourceStatus, generation: nat): MqttPub {
    StatusPub(st.state, st.sequence, if st.captured.Some? then FromUnixMilli(st.captured.value) else 0, generation)
  }

  predicate KeepsStatus(s: State, t: State) {
    && t.source.status == s.source.status && t.source.sequence == s.source.sequence
    && t.source.statusGeneration == s.source.statusGeneration && t.source.retryAt == s.source.retryAt
    && t.log.feed == s.log.feed
  }

  // ---- repeating the latest status ----

  /** The latest status is due again: its three seconds are over and the fix it announces is not too old. */
  predicate Repeats(s: State, env: Env) {
    && InForce(s, env) && RidesForGrant(s) && s.source.status.Some? && env.now >= s.source.retryAt
    && EncodableStatus(s.source.status.value)
    && (s.source.status.value.captured.Some? && s.source.status.value.state == FixAvailable ==>
          Age(env.now, FromUnixMilli(s.source.status.value.captured.value)))
  }

  /** Not from the future, and at most five seconds old. */
  predicate Age(now: Time, captured: Time) {
    captured <= now <= captured + 5 * SECOND
  }

  predicate RepeatsStatus(s: State, t: State, env: Env) {
    && t.source == s.source.(retryAt := if Repeats(s, env) then env.now + 3 * SECOND else s.source.retryAt)
    && t.log.feed == s.log.feed + (if Repeats(s, env)
                                   then Once(s, true, Named(s.source.status.value, s.source.statusGeneration),
                                             env.now + 5 * SECOND)
                                   else [])
  }

  lemma RetryRepeats(s: State, env: Env)
    ensures RepeatsStatus(s, RetryStatus(s, env), env)
  {
  }

  /** While nothing has expired, a tick repeats the latest status exactly when it is due again. */
  lemma TickRepeats(s: State, env: Env)
    requires !ActivityOver(s, env.now) && !LeaseOver(s, env.now)
    ensures RepeatsStatus(s, OnTick(s, env), env)
  {
    RetryRepeats(ExpireLease(s, env.now), env);
  }

  // ---- losing the fix ----

  /** No time that can be, no valid fix, or a new one that is too old. */
  predicate NoUsableFix(s: State, env: Env, captured: Option<Time>, fixOk: bool) {
    || !fixOk || captured.None? || captured.value > env.now
    || (captured.value > s.source.observedAt && env.now > captured.value + 5 * SECOND)
  }

  /** A time that can be, and is later than any before, is remembered even if the fix is of no use. */
  function Observed(s: State, env: Env, captured: Option<Time>): Time {
    if captured.Some? && captured.value <= env.now then Largest(captured.value, s.source.observedAt)
    else s.source.observedAt
  }

  /** A source that is not shut, or has announced a fix, is shut by a lost fix, and says so if it may. */
  lemma LostFixCloses(s: State, env: Env, captured: Option<Time>, fixOk: bool)
    requires NoUsableFix(s, env, captured, fixOk)
    requires !s.source.closed || (s.source.status.Some? && s.source.status.value.state == FixAvailable)
    ensures var t := OnGps(s, env, captured, fixOk);
            && t.source.closed && !t.source.fixPending && t.source.recoveryAfter == 0 && t.source.estimator.None?
            && t.source.generation > s.source.generation && t.source.observedAt == Observed(s, env, captured)
            && TellsNoFix(s, t, env)
  {
    var m := s.(source := s.source.(observedAt := Observed(s, env, captured)));
    assert OnGps(s, env, captured, fixOk) == LoseFix(m, env);
    ClosingTellsNoFix(ResetEstimator(InvalidatePositions(m)), env);
  }

  predicate TellsNoFix(s: State, t: State, env: Env) {
    if MaySend(s, env) && EncodableStatus(NextStatus(s, NoFix, None))
    then Publishes(s, t, env, NextStatus(s, NoFix, None)) else KeepsStatus(s, t)
  }

  lemma ClosingTellsNoFix(m: State, env: Env)
    requires !m.source.closed || (m.source.status.Some? && m.source.status.value.state == FixAvailable)
    ensures var t := CloseSource(m, env);
            && t.source.closed && !t.source.fixPending && t.source.recoveryAfter == 0 && t.source.estimator.None?
            && t.source.generation > m.source.generation && t.source.observedAt == m.source.observedAt
            && TellsNoFix(m, t, env)
  {
  }

  /** One that is shut already, with no fix announced last, only repeats its latest status when that is due. */
  lemma LostFixRepeats(s: State, env: Env, captured: Option<Time>, fixOk: bool)
    requires NoUsableFix(s, env, captured, fixOk)
    requires s.source.closed && (s.source.status.Some? ==> s.source.status.value.state == NoFix)
    ensures var t := OnGps(s, env, captured, fixOk);
            && t.source == s.source.(observedAt := Observed(s, env, captured), estimator := None,
                                     generation := t.source.generation,
                                     retryAt := if Repeats(s, env) then env.now + 3 * SECOND else s.source.retryAt)
            && t.source.generation > s.source.generation
            && t.log.feed == s.log.feed + (if Repeats(s, env)
                                           then Once(s, true, Named(s.source.status.value, s.source.statusGeneration),
                                                     env.now + 5 * SECOND)
                                           else [])
  {
  }

  // ---- fixes ----

  /** A valid fix that can be of use: new, not from the future, and at most five seconds old. */
  predicate UsableFix(s: State, env: Env, captured: Time) {
    captured > s.source.observedAt && Age(env.now, captured)
  }

  /** A valid fix that is not later than one before changes nothing. */
  lemma OldFixIsIgnored(s: State, env: Env, captured: Time)
    requires captured <= env.now && captured <= s.source.observedAt
    ensures OnGps(s, env, Some(captured), true) == s
  {
  }

  /** Enough time has passed since the last position, if there is one in this grant. */
  predicate CadenceOver(s: State, now: Time) {
    s.source.lastPositionAt == 0 || now >= s.source.lastPositionAt + s.consent.cadence
  }

  /**
   On an open source a usable fix that follows the last one is queued as a position exactly when positions may be
   sent and the cadence is over. It carries the grant's names, the current generation and the next number.
   */
  lemma FixIsQueued(s: State, env: Env, captured: Time)
    requires UsableFix(s, env, captured) && !s.source.closed
    requires s.source.estimator.Some? ==> captured > s.source.estimator.value
    ensures var t := OnGps(s, env, Some(captured), true);
            var queued := && MaySend(s, env) && CadenceOver(s, env.now)
                          && SafePositive(s.source.sequence + 1) && SafePositive(UnixMilli(captured));
            if queued then
              var g := s.consent.grant.value;
              && t.log.feed ==
                 s.log.feed + Once(s, true, PositionPub(g.session.value, g.member.value, g.stream.value, g.revision,
                                                        g.epoch, s.source.generation, captured,
                                                        s.source.sequence + 1), env.now + 5 * SECOND)
              && t.source == s.source.(observedAt := captured, estimator := Some(captured),
                                       sequence := s.source.sequence + 1, lastPositionAt := env.now)
            else
              t == s.(source := s.source.(observedAt := captured, estimator := Some(captured)))
  {
  }

  /** ... one that does not follow the last one only starts the estimate over. */
  lemma RepeatedFixRestarts(s: State, env: Env, captured: Time)
    requires UsableFix(s, env, captured) && !s.source.closed
    requires s.source.estimator.Some? && captured <= s.source.estimator.value
    ensures OnGps(s, env, Some(captured), true)
         == s.(source := s.source.(observedAt := captured, estimator := None, generation := s.source.generation + 1))
  {
  }

  /** A fix was announced on the shut source, and what was announced is at most five seconds old. */
  predicate Announced(s: State, now: Time) {
    && s.source.fixPending && s.source.status.Some? && s.source.status.value.captured.Some?
    && now <= FromUnixMilli(s.source.status.value.captured.value) + 5 * SECOND
  }

  /** On a shut source a usable fix is announced, exactly when that may be sent, unless one is announced already. */
  lemma FixIsAnnounced(s: State, env: Env, captured: Time)
    requires UsableFix(s, env, captured) && s.source.closed && !Announced(s, env.now)
    ensures var t := OnGps(s, env, Some(captured), true);
            var ms := Some(UnixMilli(captured));
            if MaySend(s, env) && captured != 0 && EncodableStatus(NextStatus(s, FixAvailable, ms)) then
              && Publishes(s, t, env, NextStatus(s, FixAvailable, ms))
              && t.source.fixPending && t.source.recoveryAfter == captured && t.source.closed
              && t.source.observedAt == captured && t.source.generation == s.source.generation
            else
              t == s.(source := s.source.(observedAt := captured))
  {
  }

  /** ... and then the announcement is repeated when it is due. */
  lemma AnnouncementRepeats(s: State, env: Env, captured: Time)
    requires UsableFix(s, env, captured) && s.source.closed && Announced(s, env.now)
    ensures RepeatsStatus(s.(source := s.source.(observedAt := captured)), OnGps(s, env, Some(captured), true), env)
  {
    RetryRepeats(s.(source := s.source.(observedAt := captured)), env);
  }

  // ---- a grant on a shut source ----

  /** A grant installed while the source stays shut has `no_fix` told to its holder, as the stream's next status. */
  lemma GrantTellsNoFix(s: State, env: Env, c: Control, id: Option<Id>)
    requires ValidControl(c) && Grants(s, env, c) && s.source.closed
    ensures var t := OnControl(s, env, c, id);
            var starts := s.consent.grant.None? || s.consent.grant.value.stream != c.stream
                          || s.consent.grant.value.epoch != c.epoch;
            var number := (if starts then 0 else s.source.sequence) + 1;
            var status := SourceStatus(s.link.connection, c.session.value, c.member.value, c.revision, c.epoch,
                                       c.stream.value, number, NoFix, None);
            t.source.closed && SafePositive(number) ==> Publishes(s, t, env, status)
  {
    GrantsIsAccepted(s, env, c);
  }
}
