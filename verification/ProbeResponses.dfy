/**
 When the journal is asked for its state: exactly when a probe goes out and what it holds, what a snapshot
 does that is no answer, and how connecting, recovering and settings lead to the question.
 */
module ProbeResponses {
  import opened Basics
  import opened Messages
  import opened AdapterModel
  import opened Vocabulary
  import opened StopResponses

  // ---- one probe ----

  lemma {:induction false} RecentIsSince(times: seq<Time>, from: Time)
    ensures Recent(times, from) == |Since(times, from)|
  {
    if times != [] {
      RecentIsSince(times[1..], from);
    }
  }

  /** A probe goes out now: the journal can be asked and no question is open. */
  predicate Due(s: State, env: Env, id: Option<Id>) {
    MayAsk(s, env) && id.Some? && forall c | c in s.journal.probes :: !Outstanding(s, env, c)
  }

  /** What a probe asks: for the state of the journal, or for the confirmation of the pending query. */
  function Question(s: State, env: Env, id: Id, query: Option<PreparedQuery>): Probe {
    var until := env.now + 10 * SECOND;
    match query
    case None => Probe(id, s.link.connection, env.now, until, Reconcile, "", 0, None, s.journal.epoch)
    case Some(q) => Probe(id, s.link.connection, env.now, Least(until, q.deadline), ApplyConfirmation,
                          q.op, q.revision, Some(q.fence), s.journal.epoch)
  }

  function Asked(s: State, env: Env, due: bool, id: Option<Id>): seq<RedisPub> {
    if due && id.Some? then [Entry(s, env, ProbeMsg(id.value), env.now + 10 * SECOND)] else []
  }

  /**
   A probe goes out exactly when it is due: it is the only one then, and is queued for ten seconds. Otherwise
   nothing is queued, and of the probes all that can still be answered stay.
   */
  lemma ProbeGoesOut(s: State, env: Env, query: Option<PreparedQuery>, id: Option<Id>)
    ensures var t := IssueProbe(s, env, if query.Some? then ApplyConfirmation else Reconcile, query, id);
            && t.log.queued == s.log.queued + Asked(s, env, Due(s, env, id), id)
            && (Due(s, env, id) ==> t.journal.probes == map[id.value := Question(s, env, id.value, query)])
            && (!Due(s, env, id) ==>
                && (forall c :: c in t.journal.probes ==>
                      c in s.journal.probes && t.journal.probes[c] == s.journal.probes[c])
                && (forall c :: c in s.journal.probes && Outstanding(s, env, c) ==> c in t.journal.probes))
  {
    DueIffIssued(s, env, id);
    assert forall c :: c in FreshProbes(s, env.now) <==> Outstanding(s, env, c);
    if Due(s, env, id) {
      assert FreshProbes(s, env.now) == map[];
    }
  }

  lemma DueIffIssued(s: State, env: Env, id: Option<Id>)
    ensures IssuesProbe(s, env, id) <==> Due(s, env, id)
  {
    RecentIsSince(s.journal.probeTimes, env.now - ATTEMPT_LIFETIME);
    var kept := FreshProbes(s, env.now);
    assert forall c :: c in kept <==> Outstanding(s, env, c);
    if |kept| == 0 {
      assert kept == map[];
    } else {
      var c :| c in kept;
      assert Outstanding(s, env, c);
    }
  }

  // ---- snapshots that are no answer ----

  /** The snapshot says otherwise than before, does not fit, or reports a stop that nobody asked about. */
  predicate Alarms(s: State, env: Env, st: LocalStop) {
    if st.challenge in s.journal.used then s.journal.used[st.challenge] != st
    else if OnLine(s, env) && Outstanding(s, env, st.challenge) && s.journal.probes[st.challenge].issuedAt <= env.now
    then !Fits(s, st)
    else st.blocked || st.phase != Idle
  }

  /** A snapshot that alarms voids everything. */
  lemma AlarmVoids(s: State, env: Env, st: LocalStop, evict: Id, id: Option<Id>)
    requires !Answers(s, env, st) && Alarms(s, env, st)
    ensures var t := OnSnapshot(s, env, st, evict, id);
            Void(s, t, 1) && t.journal.blocked && t.journal.state == s.journal.state
  {
  }

  /** Any other snapshot that is no answer changes nothing but the probes. */
  lemma OtherSnapshotIsIgnored(s: State, env: Env, st: LocalStop, evict: Id, id: Option<Id>)
    requires !Answers(s, env, st) && !Alarms(s, env, st)
    ensures var t := OnSnapshot(s, env, st, evict, id);
            && t.consent == s.consent && t.source == s.source
            && t.journal == s.journal.(probes := t.journal.probes, probeTimes := t.journal.probeTimes)
  {
  }

  /** ... and the journal is asked again, if that can be, unless the snapshot repeats an earlier answer. */
  lemma OtherSnapshotAsks(s: State, env: Env, st: LocalStop, evict: Id, id: Option<Id>)
    requires !Answers(s, env, st) && !Alarms(s, env, st)
    ensures var repeats := st.challenge in s.journal.used;
            OnSnapshot(s, env, st, evict, id).log.queued
            == s.log.queued + Asked(s, env, !repeats && Due(s, env, id), id)
  {
    ProbeGoesOut(s, env, None, id);
  }

  /** After an alarm no question is open, and the journal is asked for, if it can be. */
  lemma AlarmAsks(s: State, env: Env, st: LocalStop, evict: Id, id: Option<Id>)
    requires !Answers(s, env, st) && Alarms(s, env, st)
    ensures OnSnapshot(s, env, st, evict, id).log.queued == s.log.queued + Asked(s, env, MayAsk(s, env), id)
  {
    AskedWhenVoid(s, Inhibit(s), env, id);
    AskedWhenVoid(s, ConsumeProbe(Inhibit(s), st, evict), env, id);
  }

  /** Once everything is void, no question is open. */
  lemma AskedWhenVoid(s: State, b: State, env: Env, id: Option<Id>)
    requires b.journal.probes == map[] && b.journal.probeTimes == s.journal.probeTimes && b.link == s.link
    requires b.consent.settingsReady == s.consent.settingsReady && b.redis == s.redis && b.log == s.log
    ensures RequestReconciliation(b, env, id).log.queued
         == s.log.queued + Asked(s, env, MayAsk(s, env), id)
  {
    ProbeGoesOut(b, env, None, id);
  }

  // ---- connecting, recovering, settings ----

  /** The end of the current attempt to connect, with a nonce: everything is void, and the server is greeted. */
  lemma ConnectingStartsOver(s: State, env: Env, client: nat, attempt: nat, connection: Id, hello: Option<Id>,
                             id: Option<Id>)
    requires s.link.attempt == attempt && connection != ""
    ensures var t := OnConnectFinish(s, env, client, attempt, Some(connection), hello, id);
            && Void(s, t, 1) && t.link == Link(Some(client), connection, false, attempt)
            && t.journal.state.None? && !t.journal.blocked
            && t.consent.lastAuthority.None? && t.consent.lastCleared.None?
            && t.consent.settingsReady == s.consent.settingsReady && t.consent.blocked == s.consent.blocked
            && t.log.notices == s.log.notices +
                                (if env.up && hello.Some?
                                 then [Live(client, connection, HelloPub(hello.value), env.now + 10 * SECOND)]
                                 else [])
  {
  }

  /** ... and the journal is asked for, if it can be. */
  lemma ConnectingAsks(s: State, env: Env, client: nat, attempt: nat, connection: Id, hello: Option<Id>,
                       id: Option<Id>)
    requires s.link.attempt == attempt && connection != ""
    ensures var t := OnConnectFinish(s, env, client, attempt, Some(connection), hello, id);
            var m := s.(link := Link(Some(client), connection, false, attempt));
            t.log.queued == s.log.queued + Asked(s, env, MayAsk(m, env), id)
  {
    var m := ResetConnection(s.(link := s.link.(connecting := false)), Some(client), connection);
    ProbeGoesOut(PublishHello(m, env, hello), env, None, id);
  }

  /** Once the subscriptions are back and the settings read, the journal is asked for. */
  lemma RecoveringAsks(s: State, env: Env, id: Option<Id>)
    ensures var t := OnRecoveryDone(s, env, id);
            && t.log.queued == s.log.queued + Asked(s, env, Due(s, env, id), id)
            && t.phase == Serving && t.consent == s.consent && t.journal.state == s.journal.state
            && t.journal.ready == s.journal.ready && t.journal.blocked == s.journal.blocked
  {
    ProbeGoesOut(s.(phase := Serving), env, None, id);
  }

  /** Settings read with no block before or after: only readiness changes, which is announced. */
  lemma UnblockedSettings(s: State, env: Env, hello: Option<Id>, first: Option<Id>, second: Option<Id>)
    requires !s.consent.blocked
    ensures var t := OnRefresh(s, env, false, hello, first, second);
            var m := s.(consent := s.consent.(settingsReady := true));
            var announced := !s.consent.settingsReady && OnLine(s, env);
            && t.consent == m.consent && t.source == s.source
            && t.journal.state == s.journal.state && t.journal.ready == s.journal.ready
            && t.log.notices == s.log.notices + Once(s, announced && Introduced(s, env) && hello.Some?,
                                                     HelloPub(if hello.Some? then hello.value else ""),
                                                     env.now + 10 * SECOND)
            && t.log.queued == s.log.queued + Asked(s, env, announced && Due(m, env, first), first)
  {
    var m := s.(consent := s.consent.(settingsReady := true));
    ProbeGoesOut(PublishHello(m, env, hello), env, None, first);
  }

  /** A block that is on, or was: everything is void, whether it is switched on or off. */
  lemma BlockedSettings(s: State, env: Env, blocked: bool, hello: Option<Id>, first: Option<Id>, second: Option<Id>)
    requires blocked || s.consent.blocked
    ensures var t := OnRefresh(s, env, blocked, hello, first, second);
            && Void(s, t, 2) && t.consent.blocked == blocked && t.consent.settingsReady && t.journal.blocked
            && t.journal.state == s.journal.state
  {
  }

  /** ... and the journal is asked for under the new epoch, after what the first announcement may have asked. */
  lemma BlockedSettingsAsk(s: State, env: Env, blocked: bool, hello: Option<Id>, first: Option<Id>,
                           second: Option<Id>)
    requires blocked || s.consent.blocked
    ensures var t := OnRefresh(s, env, blocked, hello, first, second);
            var m := s.(consent := s.consent.(settingsReady := true));
            var announced := !s.consent.settingsReady && OnLine(s, env) && Due(m, env, first);
            t.log.queued == s.log.queued + Asked(s, env, announced, first) +
                            AskedAgain(s, env, if announced then 1 else 0, second)
  {
    var s1 := s.(consent := s.consent.(blocked := blocked, settingsReady := true));
    var s2 := if s.consent.settingsReady then s1 else AnnounceReady(s1, env, hello, first);
    BlockedRefresh(s, s1, s2, env, blocked, hello, first, second);
    AskedTwice(s, s1, s2, env, hello, first, second);
  }

  lemma AskedTwice(s: State, s1: State, s2: State, env: Env, hello: Option<Id>, first: Option<Id>, second: Option<Id>)
    requires s1 == s.(consent := s.consent.(blocked := s1.consent.blocked, settingsReady := true))
    requires s2 == if s.consent.settingsReady then s1 else AnnounceReady(s1, env, hello, first)
    ensures var announced := !s.consent.settingsReady && OnLine(s, env) && Due(s1, env, first);
            InhibitBySettings(s2, env, second).log.queued
            == s.log.queued + Asked(s, env, announced, first) + AskedAgain(s, env, if announced then 1 else 0, second)
  {
    AnnouncementAsks(s1, env, hello, first);
    StartingOverAsks(s2, env, second);
    assert s2.link == s.link && s2.consent.settingsReady;
  }

  /** The probe under the new epoch, with `before` probes sent in this step already. */
  function AskedAgain(s: State, env: Env, before: nat, id: Option<Id>): seq<RedisPub> {
    if Introduced(s, env) && id.Some? && Recent(s.journal.probeTimes, env.now - 10 * SECOND) + before < 10
    then [RedisPub(s.redis.next + before, ProbeMsg(id.value), env.now, env.now + 10 * SECOND)] else []
  }

  lemma StartingOverAsks(s: State, env: Env, id: Option<Id>)
    ensures InhibitBySettings(s, env, id).log.queued == s.log.queued + Asked(s, env, MayAsk(s, env), id)
  {
    ProbeGoesOut(StartOver(s), env, None, id);
  }

  lemma BlockedRefresh(s: State, s1: State, s2: State, env: Env, blocked: bool, hello: Option<Id>, first: Option<Id>,
                       second: Option<Id>)
    requires blocked || s.consent.blocked
    requires s1 == s.(consent := s.consent.(blocked := blocked, settingsReady := true))
    requires s2 == if s.consent.settingsReady then s1 else AnnounceReady(s1, env, hello, first)
    ensures OnRefresh(s, env, blocked, hello, first, second) == InhibitBySettings(s2, env, second)
    ensures s2.consent == s1.consent && s2.link == s1.link
  {
  }

  /** What the announcement of settings asks, and how many recent probes there are afterwards. */
  lemma AnnouncementAsks(s: State, env: Env, hello: Option<Id>, id: Option<Id>)
    ensures var t := AnnounceReady(s, env, hello, id);
            var due := OnLine(s, env) && Due(s, env, id);
            && t.log.queued == s.log.queued + Asked(s, env, due, id)
            && t.redis.next == s.redis.next + (if due then 1 else 0)
            && Recent(t.journal.probeTimes, env.now - 10 * SECOND) ==
               Recent(s.journal.probeTimes, env.now - 10 * SECOND) + (if due then 1 else 0)
  {
    if OnLine(s, env) {
      var m := PublishHello(s, env, hello);
      ProbeGoesOut(m, env, None, id);
      ProbeTimes(m, env, id);
    }
  }

  lemma ProbeTimes(s: State, env: Env, id: Option<Id>)
    ensures var t := IssueProbe(s, env, Reconcile, None, id);
            && t.redis.next == s.redis.next + (if Due(s, env, id) then 1 else 0)
            && Recent(t.journal.probeTimes, env.now - 10 * SECOND) ==
               Recent(s.journal.probeTimes, env.now - 10 * SECOND) + (if Due(s, env, id) then 1 else 0)
  {
    var from := env.now - 10 * SECOND;
    ProbeGoesOut(s, env, None, id);
    RecentIsSince(s.journal.probeTimes, from);
    RecentIsKept(s.journal.probeTimes, from);
    RecentAppend(Since(s.journal.probeTimes, from), env.now, from);
  }

  lemma {:induction false} RecentIsKept(times: seq<Time>, from: Time)
    ensures Recent(Since(times, from), from) == Recent(times, from)
  {
    if times != [] {
      RecentIsKept(times[1..], from);
    }
  }

  lemma {:induction false} RecentAppend(times: seq<Time>, t: Time, from: Time)
    ensures Recent(times + [t], from) == Recent(times, from) + if t >= from then 1 else 0
  {
    if times != [] {
      assert (times + [t])[1..] == times[1..] + [t];
      RecentAppend(times[1..], t, from);
    }
  }
}
