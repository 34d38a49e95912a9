/**
 When the scooter comes to hold consent and when it loses it: exactly when an activity is accepted, a grant is
 installed or a clear retires it, what is sent then, and what time does to activities and leases.
 */
module ConsentResponses {
  import opened Basics
  import opened Messages
  import opened AdapterModel
  import opened Vocabulary
  import opened ReplyResponses

  // ---- activities ----

  /**
   The activity is news: not numbered as before, with a challenge not seen, for the session and member known so
   far, and at least a second after the last one. Going inactive may name anyone, at any time.
   */
  predicate News(s: State, env: Env, a: Activity) {
    && (a.boot == s.consent.boot ==> a.sequence > s.consent.bootSeq)
    && a.challenge !in s.consent.challenges
    && (a.active ==>
          && (s.consent.activity.Some? && s.consent.activity.value.session.Some? ==>
                a.session == s.consent.activity.value.session && a.member == s.consent.activity.value.member)
          && (s.consent.activityAt == 0 || env.now >= s.consent.activityAt + SECOND))
  }

  /** The challenges of less than ten seconds stay, with this one; of ten or more, one is dropped. */
  predicate Registers(before: map<Id, Time>, after: map<Id, Time>, now: Time, challenge: Id, victim: Id) {
    var known := before[challenge := now];
    var young := set c | c in known && now < known[c] + 10 * SECOND;
    && after.Keys == (if |young| < 10 then young else young - {victim})
    && forall c | c in after :: after[c] == known[c]
  }

  /** An activity is accepted exactly when consent is open here and it is news; otherwise nothing changes. */
  lemma ActivityIsAccepted(s: State, env: Env, a: Activity, victim: Id)
    ensures var t := OnActivity(s, env, a, victim);
            if Open(s) && OnLine(s, env) && News(s, env, a) then
              && t.consent.activity == Some(a) && t.consent.activityAt == env.now
              && t.consent.boot == a.boot && t.consent.bootSeq == a.sequence
              && Registers(s.consent.challenges, t.consent.challenges, env.now, a.challenge, victim)
            else t == s
  {
    if Open(s) && OnLine(s, env) && News(s, env, a) {
      PrunedChallenges(s.consent.challenges, env.now, a.challenge, victim);
    }
  }

  lemma PrunedChallenges(m: map<Id, Time>, now: Time, challenge: Id, victim: Id)
    ensures Registers(m, PruneChallenges(m[challenge := now], now, victim), now, challenge, victim)
  {
    var known := m[challenge := now];
    var recent := map c | c in known && now - known[c] < LEASE_DURATION :: known[c];
    var young := set c | c in known && now < known[c] + 10 * SECOND;
    assert recent.Keys == young;
  }

  /** An accepted activity keeps the grant only while the rider shares, and puts a grant for the same ride in force. */
  lemma ActivityDecidesGrant(s: State, env: Env, a: Activity, victim: Id)
    requires Open(s) && OnLine(s, env) && News(s, env, a)
    ensures var t := OnActivity(s, env, a, victim);
            var c := s.consent;
            if a.active then
              && t.consent.grant == c.grant && t.consent.grantAt == c.grantAt && t.consent.grantTTL == c.grantTTL
              && t.consent.grantActive == (c.grantActive || RidesFor(a, c.grant)) && t.source == s.source
            else
              && t.consent.grant.None? && !t.consent.grantActive && t.source.generation > s.source.generation
  {
  }

  predicate RidesFor(a: Activity, grant: Option<Control>) {
    grant.Some? && a.session.Some? && a.session == grant.value.session && a.member == grant.value.member
  }

  /** An accepted activity greets the server with its challenge and is then sent, to be answered by a grant. */
  lemma ActivityIsSent(s: State, env: Env, a: Activity, victim: Id)
    requires Open(s) && OnLine(s, env) && News(s, env, a)
    ensures OnActivity(s, env, a, victim).log.notices
         == s.log.notices
            + Once(s, Introduced(s, env), HelloPub(a.challenge), env.now + 10 * SECOND)
            + Once(s, Introduced(s, env), ActivityPub(a.boot, a.sequence, a.active), env.now + 5 * SECOND)
  {
  }

  // ---- grants ----

  /** The grant is not behind `earlier` in epoch, revision or consent, and has its stream if it has its epoch. */
  predicate Advances(c: Control, earlier: Control) {
    && c.epoch >= earlier.epoch && c.revision >= earlier.revision && c.consent >= earlier.consent
    && (c.epoch == earlier.epoch ==> c.stream == earlier.stream)
  }

  /** The grant answers a challenge of less than ten seconds, and leaves some of its lease. */
  predicate AnswersChallenge(s: State, now: Time, c: Control) {
    && c.challenge in s.consent.challenges
    && s.consent.challenges[c.challenge] <= now < s.consent.challenges[c.challenge] + 10 * SECOND
    && now < s.consent.challenges[c.challenge] + c.ttlMs * MILLISECOND
  }

  /** The grant fits the rider's activity, the grant held, and what this connection has seen of its session. */
  predicate Fitting(s: State, c: Control) {
    && (s.consent.activity.Some? && s.consent.activity.value.session.Some? ==>
          s.consent.activity.value.session == c.session && s.consent.activity.value.member == c.member)
    && (s.consent.grant.Some? ==>
          && s.consent.grant.value.session == c.session && s.consent.grant.value.member == c.member
          && Advances(c, s.consent.grant.value))
    && (s.consent.lastAuthority.Some? && s.consent.lastAuthority.value.session == c.session ==>
          Advances(c, s.consent.lastAuthority.value))
    && (s.consent.lastCleared.Some? && s.consent.lastCleared.value.session == c.session ==>
          c.epoch > s.consent.lastCleared.value.epoch && c.revision >= s.consent.lastCleared.value.revision)
  }

  /** Everything a grant needs to be installed. */
  predicate Grants(s: State, env: Env, c: Control) {
    && (c.action == Grant || c.action == Renew) && Arrives(s, env, c) && Open(s) && Sharing(s, env.now)
    && AnswersChallenge(s, env.now, c) && Fitting(s, c)
  }

  /** A grant is installed exactly then; its lease runs from the challenge. Otherwise nothing changes. */
  lemma GrantIsInstalled(s: State, env: Env, c: Control, id: Option<Id>)
    requires ValidControl(c) && (c.action == Grant || c.action == Renew)
    ensures var t := OnControl(s, env, c, id);
            if Grants(s, env, c) then
              && t.consent == s.consent.(
                   grant := Some(c), lastAuthority := Some(c), lastCleared := None, grantAt := env.now,
                   grantTTL := s.consent.challenges[c.challenge] + c.ttlMs * MILLISECOND - env.now,
                   grantActive := RidesFor(s.consent.activity.value, Some(c)),
                   cadence := Largest(SECOND, c.cadenceMs.value * MILLISECOND))
              && t.log.queued == s.log.queued +
                                 [Entry(s, env, ControlMsg(c), s.consent.challenges[c.challenge] + 10 * SECOND)]
            else t == s
  {
    GrantsIsAccepted(s, env, c);
  }

  /** The adapter's own test for a grant. */
  lemma GrantsIsAccepted(s: State, env: Env, c: Control)
    requires ValidControl(c)
    ensures Grants(s, env, c) <==> AcceptsGrant(s, env, c)
  {
  }

  /** ... the replay marks kept are those of the peers it lists, of the same session. */
  lemma GrantScopesPeers(s: State, env: Env, c: Control, id: Option<Id>)
    requires ValidControl(c) && Grants(s, env, c)
    ensures var t := OnControl(s, env, c, id);
            && Some(t.peers.scope) == c.session
            && (forall p :: p in t.peers.streams <==>
                  p in s.peers.streams && p in c.peers && Some(s.peers.scope) == c.session)
            && (forall p :: p in t.peers.streams ==> t.peers.streams[p] == s.peers.streams[p])
  {
    GrantsIsAccepted(s, env, c);
  }

  /** ... a grant for another stream or epoch starts the source's numbering, and ends a pending recovery. */
  lemma GrantStartsStream(s: State, env: Env, c: Control, id: Option<Id>)
    requires ValidControl(c) && Grants(s, env, c)
    ensures var t := OnControl(s, env, c, id);
            var g := s.consent.grant;
            var starts := g.None? || g.value.stream != c.stream || g.value.epoch != c.epoch;
            var closed := s.source.closed && (starts ==> !s.source.fixPending);
            && t.source.closed == closed && t.source.fixPending == (!starts && s.source.fixPending)
            && t.source.generation == s.source.generation + (if starts then 1 else 0)
            && t.source.lastPositionAt == s.source.lastPositionAt && t.source.estimator == s.source.estimator
            && (!closed ==> t.source.sequence == (if starts then 0 else s.source.sequence) && t.log.feed == s.log.feed)
  {
    GrantsIsAccepted(s, env, c);
  }

  // ---- clears ----

  /** A clear retires the held grant exactly when it names its session and member and is not behind it. */
  lemma ClearRetires(s: State, env: Env, c: Control, id: Option<Id>)
    requires ValidControl(c) && c.action == Clear && s.consent.grant.Some?
    ensures var t := OnControl(s, env, c, id);
            var g := s.consent.grant.value;
            if Arrives(s, env, c) && g.session == c.session && g.member == c.member && Advances(c, g) then
              && t.consent == s.consent.(
                   grant := None, grantAt := 0, grantTTL := 0, grantActive := false, activity := None,
                   activityAt := 0, challenges := map[], lastCleared := Some(c))
              && t.source.generation > s.source.generation && t.source.lastPositionAt == 0
              && t.log.queued == s.log.queued + [Entry(s, env, ControlMsg(c), 0)]
            else t == s
  {
  }

  /** With no grant held a clear forgets the challenges, and is forwarded, unless the journal is blocked. */
  lemma ClearWithoutGrant(s: State, env: Env, c: Control, id: Option<Id>)
    requires ValidControl(c) && c.action == Clear && s.consent.grant.None?
    ensures var t := OnControl(s, env, c, id);
            if Arrives(s, env, c) && !s.journal.blocked then
              && t.consent == s.consent.(challenges := map[]) && t.source == s.source
              && t.log.queued == s.log.queued + [Entry(s, env, ControlMsg(c), 0)]
            else t == s
  {
  }

  // ---- time ----

  /** The activity's ten seconds are over, or the clock is before it. */
  predicate ActivityOver(s: State, now: Time) {
    s.consent.activity.Some? && !(s.consent.activityAt <= now < s.consent.activityAt + 10 * SECOND)
  }

  predicate LeaseOver(s: State, now: Time) {
    s.consent.grant.Some? && !(s.consent.grantAt <= now < s.consent.grantAt + s.consent.grantTTL)
  }

  /** The clock ends activities and leases exactly when they are over; an activity takes the grant with it. */
  lemma TickExpires(s: State, env: Env)
    ensures var t := OnTick(s, env);
            var c := s.consent;
            var over := ActivityOver(s, env.now);
            var ends := over || LeaseOver(s, env.now);
            && t.consent ==
               (if over then c.(activity := None, activityAt := 0, challenges := map[], grant := None, grantAt := 0,
                                grantTTL := 0, grantActive := false)
                else if ends then c.(grant := None, grantAt := 0, grantTTL := 0, grantActive := false)
                else c)
            && (ends ==> t.source.generation > s.source.generation && t.source.lastPositionAt == 0)
            && (!ends ==> t.source.generation == s.source.generation &&
                          t.source.lastPositionAt == s.source.lastPositionAt)
  {
  }

  /** ... and it drops the probes and stop attempts that can no longer be answered. */
  lemma TickForgets(s: State, env: Env)
    ensures var t := OnTick(s, env);
            && (forall c :: c in t.journal.probes <==> Outstanding(s, env, c))
            && (forall c :: c in t.journal.probes ==> t.journal.probes[c] == s.journal.probes[c])
            && (forall c :: c in t.journal.attempts <==>
                  && c in s.journal.attempts && env.now <= s.journal.attempts[c].deadline
                  && s.journal.attempts[c].connection == s.link.connection
                  && s.journal.attempts[c].epoch == s.journal.epoch)
            && (forall c :: c in t.journal.attempts ==> t.journal.attempts[c] == s.journal.attempts[c])
  {
  }

  // ---- connections and failures ----

  /** Losing the Redis connection voids everything, and readiness with it. */
  lemma FailureVoids(s: State)
    ensures var t := OnFailClosed(s);
            && Void(s, t, 1) && !t.consent.settingsReady && t.journal.blocked && t.journal.state.None?
            && t.phase == Subscribing && t.link == s.link && t.log == s.log
            && t.consent.blocked == s.consent.blocked
  {
  }

  /** The loss of the current client voids everything; a connection attempt under way is outdated with it. */
  lemma DisconnectionVoids(s: State, client: nat)
    ensures var t := OnDisconnected(s, client);
            if s.link.client == Some(client) then
              && Void(s, t, 1) && t.journal.state.None? && !t.journal.blocked
              && t.link == Link(None, "", false, s.link.attempt + 1)
              && t.consent.lastAuthority.None? && t.consent.lastCleared.None?
            else if s.link.connecting then
              t == s.(link := s.link.(attempt := s.link.attempt + 1, connecting := false))
            else t == s
  {
  }

  /** A client is taken up when it is connected, not known already, and no attempt is under way. */
  lemma ConnectionBegins(s: State, env: Env, client: nat)
    ensures var t := OnConnectBegin(s, env, client);
            var known := s.link.client == Some(client) && s.link.connection != "";
            t == if env.up && !known && !s.link.connecting
                 then s.(link := s.link.(connecting := true, attempt := s.link.attempt + 1)) else s
  {
  }

  /** An attempt that failed is over; one that is no longer the current one changes nothing. */
  lemma FailedConnection(s: State, env: Env, client: nat, attempt: nat, connection: Option<Id>, hello: Option<Id>,
                         id: Option<Id>)
    requires s.link.attempt != attempt || connection.None?
    ensures OnConnectFinish(s, env, client, attempt, connection, hello, id)
         == if s.link.attempt == attempt then s.(link := s.link.(connecting := false)) else s
  {
  }
}
