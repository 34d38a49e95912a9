/**
 Stopping, from the other side: not only what is sent must be justified, but what is due is sent. Exactly
 when a journal snapshot makes the adapter ask about a stop, apply it, greet the server or repeat its
 activity; exactly when a reply is forwarded and what it reports; exactly when the journal is asked for.
 */
module StopResponses {
  import opened Basics
  import opened Messages
  import opened AdapterModel
  import opened AdapterRuns
  import opened StopProofs
  import opened Vocabulary

  // ---- journal snapshots ----

  /** The snapshot fits what is known of the journal: it is later, or it says the same. */
  predicate Fits(s: State, st: LocalStop) {
    s.journal.state.Some? ==>
      var known := s.journal.state.value;
      st.revision > known.revision || st == known.(challenge := st.challenge)
  }

  /** The snapshot answers the outstanding probe in time, for the first time, and fits. */
  predicate Answers(s: State, env: Env, st: LocalStop) {
    && OnLine(s, env) && st.challenge !in s.journal.used && Fits(s, st)
    && Outstanding(s, env, st.challenge) && s.journal.probes[st.challenge].issuedAt <= env.now
  }

  /** A stop request can go out: introduced, in an epoch, with no live attempt and room for one more. */
  predicate Room(s: State, env: Env) {
    && Introduced(s, env) && s.journal.epoch != 0 && |s.journal.attempts| < 10
    && forall c | c in s.journal.attempts :: s.journal.attempts[c].consumed || env.now >= s.journal.attempts[c].deadline
  }

  /** The journal's stop is to be asked about: prepared but not committed, or uncertain, and named. */
  predicate Asks(st: LocalStop) {
    && st.op.Some?
    && ((st.phase == Prepared && st.expected.Some? && st.committed.None?) || st.phase == Uncertain)
  }

  function NewAttempt(s: State, env: Env, st: LocalStop, mode: StopMode, until: Time): Attempt
    requires st.op.Some?
  {
    Attempt(st.op.value, st.revision, st.challenge, s.link.connection, env.now, mode, st.expected, until,
            s.journal.epoch, false)
  }

  /** A snapshot that answers is taken as the journal's state, and its probe is used up. */
  lemma AnswerIsTaken(s: State, env: Env, st: LocalStop, evict: Id, id: Option<Id>)
    requires Answers(s, env, st)
    ensures var t := OnSnapshot(s, env, st, evict, id);
            && t.journal.state == Some(st) && t.journal.blocked == st.blocked
            && t.journal.ready == (st.phase == Idle && !st.blocked)
            && t.journal.probes == s.journal.probes - {st.challenge} && t.journal.epoch == s.journal.epoch
            && (st.challenge != evict ==> st.challenge in t.journal.used && t.journal.used[st.challenge] == st)
  {
  }

  /** ... and only the grant depends on what it says: it stays while the journal is idle and not blocked. */
  lemma AnswerDecidesGrant(s: State, env: Env, st: LocalStop, evict: Id, id: Option<Id>)
    requires Answers(s, env, st)
    ensures var t := OnSnapshot(s, env, st, evict, id);
            var c := s.consent;
            if st.phase == Idle && !st.blocked then t.consent == c && t.source == s.source
            else && t.consent == c.(grant := None, grantAt := 0, grantTTL := 0, grantActive := false)
                 && t.source.generation > s.source.generation
  {
  }

  /**
   A taken snapshot that is no confirmation queues a query exactly when the journal's stop is to be asked about
   and a request can go out: for this operation, fence and challenge, until the probe's deadline.
   */
  lemma SnapshotQueries(s: State, env: Env, st: LocalStop, evict: Id, id: Option<Id>)
    requires env.now > 0 && Answers(s, env, st) && s.journal.probes[st.challenge].purpose != ApplyConfirmation
    ensures var t := OnSnapshot(s, env, st, evict, id);
            var until := Least(s.journal.probes[st.challenge].deadline, env.now + 10 * SECOND);
            t.log.stops == s.log.stops +
                           (if Asks(st) && Room(s, env)
                            then Once(s, true, StopPub(st.op.value, st.expected, st.challenge, Query), until)
                            else [])
  {
    TakenSnapshotActs(s, env, st, evict, id);
    QueryOfSnapshot(AdoptSnapshot(s, st, evict), env, st, s.journal.probes[st.challenge]);
  }

  /** ... the attempt is recorded with what it was sent for. */
  lemma SnapshotRecordsAttempt(s: State, env: Env, st: LocalStop, evict: Id, id: Option<Id>)
    requires env.now > 0 && Answers(s, env, st) && s.journal.probes[st.challenge].purpose != ApplyConfirmation
    ensures var t := OnSnapshot(s, env, st, evict, id);
            var until := Least(s.journal.probes[st.challenge].deadline, env.now + 10 * SECOND);
            t.journal.attempts ==
            (if Asks(st) && Room(s, env) then s.journal.attempts[st.challenge := NewAttempt(s, env, st, Query, until)]
             else s.journal.attempts)
  {
    TakenSnapshotActs(s, env, st, evict, id);
    QueryOfSnapshot(AdoptSnapshot(s, st, evict), env, st, s.journal.probes[st.challenge]);
  }

  /** ... and the pending query becomes the one of a prepared snapshot, even when no request can go out. */
  lemma SnapshotRemembersQuery(s: State, env: Env, st: LocalStop, evict: Id, id: Option<Id>)
    requires Answers(s, env, st) && s.journal.probes[st.challenge].purpose != ApplyConfirmation
    ensures OnSnapshot(s, env, st, evict, id).journal.query ==
            (if st.phase == Prepared && st.op.Some? && st.expected.Some? && st.committed.None?
             then Some(PreparedQuery(st.op.value, st.revision, st.expected.value, s.link.connection, s.journal.epoch,
                                     s.journal.probes[st.challenge].deadline, st.challenge))
             else s.journal.query)
  {
  }

  /** What is left to do once the snapshot is taken. */
  lemma TakenSnapshotActs(s: State, env: Env, st: LocalStop, evict: Id, id: Option<Id>)
    requires Answers(s, env, st)
    ensures OnSnapshot(s, env, st, evict, id)
         == ActOnSnapshot(AdoptSnapshot(s, st, evict), env, st, s.journal.probes[st.challenge])
  {
  }

  lemma QueryOfSnapshot(a: State, env: Env, st: LocalStop, probe: Probe)
    requires env.now > 0 && a.journal.state == Some(st) && probe.purpose != ApplyConfirmation && probe.deadline > 0
    ensures var t := ActOnSnapshot(a, env, st, probe);
            var until := Least(probe.deadline, env.now + 10 * SECOND);
            && t.log.stops == a.log.stops +
                              (if Asks(st) && Room(a, env)
                               then Once(a, true, StopPub(st.op.value, st.expected, st.challenge, Query), until)
                               else [])
            && t.journal.attempts ==
               (if Asks(st) && Room(a, env)
                then a.journal.attempts[st.challenge := NewAttempt(a, env, st, Query, until)]
                else a.journal.attempts)
  {
    if Asks(st) {
      RequestIsSent(a, env, st, probe.deadline, a.journal.query);
      if st.phase == Prepared {
        var q := PreparedQuery(st.op.value, st.revision, st.expected.value, a.link.connection,
                               a.journal.epoch, probe.deadline, st.challenge);
        RequestIsSent(a, env, st, probe.deadline, Some(q));
      }
    }
  }

  /** The request is sent exactly when there is room for it. */
  lemma RequestIsSent(a: State, env: Env, st: LocalStop, deadline: Time, query: Option<PreparedQuery>)
    requires env.now > 0 && a.journal.state == Some(st) && st.op.Some? && deadline > 0
    ensures var b := a.(journal := a.journal.(query := query));
            var t := SendStop(b, env, st.op.value, st.revision, st.expected, st.challenge, Query, deadline);
            var until := Least(deadline, env.now + 10 * SECOND);
            && t.log.stops == a.log.stops +
                              (if Room(a, env)
                               then Once(a, true, StopPub(st.op.value, st.expected, st.challenge, Query), until)
                               else [])
            && t.journal.attempts ==
               (if Room(a, env)
                then a.journal.attempts[st.challenge := NewAttempt(a, env, st, Query, until)]
                else a.journal.attempts)
  {
  }

  /**
   A preparing snapshot leaves a permit for one offer and greets the server with the snapshot's challenge; an idle
   one has an accepted activity sent again.
   */
  lemma SnapshotAnnounces(s: State, env: Env, st: LocalStop, evict: Id, id: Option<Id>)
    requires Answers(s, env, st) && s.journal.probes[st.challenge].purpose != ApplyConfirmation
    ensures Announces(s, OnSnapshot(s, env, st, evict, id), env, st)
  {
  }

  /** A stop is being prepared: it has a name, but neither a fence nor an outcome. */
  predicate Prepares(st: LocalStop) {
    st.phase == Preparing && st.op.Some? && st.expected.None? && st.committed.None?
  }

  predicate Announces(s: State, t: State, env: Env, st: LocalStop)
    requires st.challenge in s.journal.probes
  {
    var p := s.journal.probes[st.challenge];
    var a := s.consent.activity;
    && t.journal.permit ==
       (if Prepares(st)
        then Some(Probe(st.challenge, p.connection, p.issuedAt, p.deadline, OfferPermit, st.op.value,
                        st.revision, None, p.epoch))
        else s.journal.permit)
    && t.log.notices == s.log.notices +
                        (if Prepares(st)
                         then Once(s, Introduced(s, env), HelloPub(st.challenge), env.now + 10 * SECOND)
                         else if st.phase == Idle && !st.blocked && a.Some? && !s.consent.blocked
                         then Once(s, Introduced(s, env), ActivityPub(a.value.boot, a.value.sequence, a.value.active),
                                   env.now + 5 * SECOND)
                         else [])
  }

  /** The confirmation finds the journal exactly as the pending query asked about it, in time. */
  predicate ConfirmsQuery(s: State, env: Env, st: LocalStop, deadline: Time) {
    && s.journal.query.Some? && env.now < deadline && env.now < s.journal.query.value.deadline
    && s.journal.query.value.connection == s.link.connection && s.journal.query.value.epoch == s.journal.epoch
    && st.op == Some(s.journal.query.value.op) && st.revision == s.journal.query.value.revision
    && st.phase == Prepared && st.expected == Some(s.journal.query.value.fence) && st.committed.None?
  }

  /**
   A taken confirmation queues an apply exactly when it confirms the pending query and a request can go out; the
   query is then, or if it is not confirmed, used up.
   */
  lemma ConfirmationApplies(s: State, env: Env, st: LocalStop, evict: Id, id: Option<Id>)
    requires env.now > 0 && Answers(s, env, st) && s.journal.probes[st.challenge].purpose == ApplyConfirmation
    requires s.journal.probes[st.challenge].challenge == st.challenge
    ensures Applies(s, OnSnapshot(s, env, st, evict, id), env, st, s.journal.probes[st.challenge].deadline)
  {
    TakenSnapshotActs(s, env, st, evict, id);
    ConfirmedQueryApplies(AdoptSnapshot(s, st, evict), env, st, s.journal.probes[st.challenge]);
  }

  predicate Applies(s: State, t: State, env: Env, st: LocalStop, deadline: Time) {
    var applies := ConfirmsQuery(s, env, st, deadline) && Room(s, env);
    && t.log.notices == s.log.notices && t.journal.permit == s.journal.permit
    && (applies ==>
          var q := s.journal.query.value;
          var until := Least(q.deadline, env.now + 10 * SECOND);
          && t.log.stops == s.log.stops + Once(s, true, StopPub(q.op, Some(q.fence), st.challenge, Apply), until)
          && t.journal.attempts ==
             s.journal.attempts[st.challenge := NewAttempt(s, env, st, Apply, until)])
    && (!applies ==> t.log.stops == s.log.stops && t.journal.attempts == s.journal.attempts)
    && t.journal.query == (if ConfirmsQuery(s, env, st, deadline) && !applies then s.journal.query else None)
  }

  lemma ConfirmedQueryApplies(a: State, env: Env, st: LocalStop, probe: Probe)
    requires env.now > 0 && a.journal.state == Some(st) && probe.purpose == ApplyConfirmation
    requires probe.challenge == st.challenge && probe.connection == a.link.connection && probe.epoch == a.journal.epoch
    ensures Applies(a, ActOnSnapshot(a, env, st, probe), env, st, probe.deadline)
  {
  }

  // ---- over every run ----

  /** What the adapter sends the server when it asks about the journal's stop. */
  predicate AsksServer(s: State, t: State, env: Env, st: LocalStop)
    requires st.challenge in s.journal.probes
  {
    var p := s.journal.probes[st.challenge];
    var until := Least(p.deadline, env.now + 10 * SECOND);
    && t.log.stops == s.log.stops +
                      (if Asks(st) && Room(s, env)
                       then Once(s, true, StopPub(st.op.value, st.expected, st.challenge, Query), until)
                       else [])
    && t.journal.attempts ==
       (if Asks(st) && Room(s, env) then s.journal.attempts[st.challenge := NewAttempt(s, env, st, Query, until)]
        else s.journal.attempts)
    && t.journal.query ==
       (if st.phase == Prepared && st.op.Some? && st.expected.Some? && st.committed.None?
        then Some(PreparedQuery(st.op.value, st.revision, st.expected.value, s.link.connection, s.journal.epoch,
                                p.deadline, st.challenge))
        else s.journal.query)
  }

  /**
   In every run, a snapshot that answers an ordinary probe asks the server about the journal's stop exactly when
   there is one to ask about and room for a request, greets for a preparing journal and repeats the activity for an
   idle one. A snapshot that answers a confirmation probe applies the stop exactly when it confirms the pending query
   and there is room.
   */
  lemma SnapshotsAreActedOn(ss: seq<State>, es: seq<Input>, k: nat)
    requires IsRun(ss, es) && k < |es| && es[k].event.SnapshotIn? && Answers(ss[k], es[k].env, es[k].event.state)
    ensures var st := es[k].event.state;
            var p := ss[k].journal.probes[st.challenge];
            && ss[k + 1].journal.state == Some(st)
            && (p.purpose != ApplyConfirmation ==>
                  AsksServer(ss[k], ss[k + 1], es[k].env, st) && Announces(ss[k], ss[k + 1], es[k].env, st))
            && (p.purpose == ApplyConfirmation ==> Applies(ss[k], ss[k + 1], es[k].env, st, p.deadline))
  {
    assert StepAt(ss, es, k);
    RunKeepsStopInv(ss, es, k);
    var s, env, e := ss[k], es[k].env, es[k].event;
    AnswerIsTaken(s, env, e.state, e.evict, e.probe);
    if s.journal.probes[e.state.challenge].purpose == ApplyConfirmation {
      ConfirmationApplies(s, env, e.state, e.evict, e.probe);
    } else {
      SnapshotQueries(s, env, e.state, e.evict, e.probe);
      SnapshotRecordsAttempt(s, env, e.state, e.evict, e.probe);
      SnapshotRemembersQuery(s, env, e.state, e.evict, e.probe);
      SnapshotAnnounces(s, env, e.state, e.evict, e.probe);
    }
  }
}
