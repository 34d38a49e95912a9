/**
 What is due arrives. With an idle worker and an idle writer on a connected socket, what the adapter sends is
 written to the socket, as long as authority lasts and no second passes: a position for a usable fix, and a
 query for a prepared or uncertain stop. The steps that lead there are those of the joint system.
 */
module Delivery {
  import opened Basics
  import opened Messages
  import opened AdapterModel
  import Runs = AdapterRuns
  import opened LatestQueue
  import Transport = LiveTransport
  import Egress
  import opened Pipeline
  import opened Vocabulary
  import opened StopResponses
  import opened ReplyResponses
  import opened FeedResponses
  import opened BoundaryResponses

  /** The steps `es` can be taken one after another and lead through the states `js`. */
  ghost predicate Path(js: seq<Joint>, es: seq<Step>) {
    |js| == |es| + 1 && forall k: nat | k < |es| :: StepAt(js, es, k)
  }

  lemma PathsJoin(js: seq<Joint>, es: seq<Step>, ks: seq<Joint>, fs: seq<Step>)
    requires Path(js, es) && Path(ks, fs) && js[|es|] == ks[0]
    ensures Path(js + ks[1..], es + fs)
  {
    var ls, gs := js + ks[1..], es + fs;
    forall k: nat | k < |gs|
      ensures StepAt(ls, gs, k)
    {
      if k < |es| {
        assert StepAt(js, es, k) && ls[k] == js[k] && ls[k + 1] == js[k + 1] && gs[k] == es[k];
      } else {
        var m := k - |es|;
        assert StepAt(ks, fs, m) && ls[k] == ks[m] && ls[k + 1] == ks[m + 1] && gs[k] == fs[m];
      }
    }
  }

  /** The worker has nothing to do and no call to the transport, whose writer waits with nothing pending. */
  predicate AtRest(j: Joint) {
    && j.pool.queue.pending == map[] && !j.pool.closing && j.pool.worker == Egress.Asleep
    && 0 !in j.transport.publishers && j.transport.queue.pending == map[] && j.transport.writer == Transport.Waiting
    && ClientUp(j)
  }

  /** When the worker asks the adapter, the frame is published, the writer asks the adapter, and it is written. */
  datatype Times = Times(approve: Time, check: Time, authorize: Time, write: Time)

  /** None of these is after the publication has expired, and the last two are within a second of publishing. */
  predicate InTime(t: Times, expiresAt: Time) {
    && (expiresAt != 0 ==>
          t.approve < expiresAt && t.check < expiresAt && t.authorize < expiresAt && t.write < expiresAt)
    && t.authorize < t.check + SECOND && t.write < t.check + SECOND
  }

  function Delivered(live: Live, t: Times): Transport.Sent {
    var second := t.check + SECOND;
    var expires := if live.expiresAt == 0 then second else Least(live.expiresAt, second);
    Transport.Sent(Transport.Frame(live, t.check, expires), t.write)
  }

  /** The publication is all there is for the worker, and the transport is idle. */
  predicate WithJob(j: Joint, live: Live) {
    && j.pool.posters > 0 && !j.pool.closing && j.pool.worker == Egress.Asleep
    && j.pool.queue.pending == map[Egress.LiveSlot(Transport.KindOf(live.pub)) :=
                                     Entry(j.pool.queue.order, Egress.Publication(live))]
    && 0 !in j.transport.publishers && j.transport.queue.pending == map[] && j.transport.writer == Transport.Waiting
    && j.adapter.link.client == Some(live.client) && ClientUp(j)
  }

  /** The one pending publication is taken by the worker. */
  lemma WorkerTakes(j: Joint, live: Live) returns (js: seq<Joint>, es: seq<Step>)
    requires WithJob(j, live)
    ensures Path(js, es) && js[0] == j
    ensures js[|es|].adapter == j.adapter && js[|es|].transport == j.transport && js[|es|].offer == Untouched
    ensures js[|es|].pool.worker == Egress.Handling(Egress.Publication(live))
  {
    var slot := Egress.LiveSlot(Transport.KindOf(live.pub));
    var j1 := After(j, Work(Egress.PostToken));
    var j2 := After(j1, Work(Egress.WakeUp));
    assert IsOldest(j2.pool.queue, slot);
    var take := Work(Egress.TakeJob(slot));
    js, es := [j, j1, j2, After(j2, take)], [Work(Egress.PostToken), Work(Egress.WakeUp), take];
  }

  /** The worker asks the adapter, and offers the publication to the transport. */
  lemma WorkerOffers(j: Joint, live: Live, t: Times) returns (js: seq<Joint>, es: seq<Step>)
    requires j.pool.worker == Egress.Handling(Egress.Publication(live)) && j.offer == Untouched
    requires InTime(t, live.expiresAt) && j.adapter.link.client == Some(live.client) && ClientUp(j)
    requires Transport.Backed(j.adapter, Env(t.approve, true), live) && 0 !in j.transport.publishers
    ensures Path(js, es) && js[0] == j && js[|es|].adapter == j.adapter
    ensures js[|es|].transport == j.transport.(publishers := j.transport.publishers[
                                    0 := Transport.Checked(Delivered(live, t).frame)])
  {
    var ask, check := Approve(Env(t.approve, true)), Carry(Transport.Check(0, live, t.check));
    var j1 := After(j, ask);
    js, es := [j, j1, After(j1, check)], [ask, check];
  }

  /** The one published frame is put and taken. */
  lemma WriterTakes(j: Joint, f: Transport.Frame) returns (js: seq<Joint>, es: seq<Step>)
    requires 0 in j.transport.publishers && j.transport.publishers[0] == Transport.Checked(f)
    requires j.transport.queue.pending == map[] && j.transport.writer == Transport.Waiting
    ensures Path(js, es) && js[0] == j && js[|es|].adapter == j.adapter
    ensures var t := js[|es|].transport;
            && t.writer == Transport.Holding(f) && t.written == j.transport.written && t.socket == j.transport.socket
            && t.connected == j.transport.connected && t.authenticated == j.transport.authenticated
  {
    var kind := Transport.KindOf(f.live.pub);
    var insert, post, wake := Carry(Transport.Insert(0)), Carry(Transport.Post(0)), Carry(Transport.Wake);
    var j1 := After(j, insert);
    var j2 := After(j1, post);
    var j3 := After(j2, wake);
    assert IsOldest(j3.transport.queue, kind);
    var take := Carry(Transport.Take(kind));
    js, es := [j, j1, j2, j3, After(j3, take)], [insert, post, wake, take];
  }

  /** The writer asks the adapter, and writes the frame. */
  lemma WriterWrites(j: Joint, f: Transport.Frame, t: Times) returns (js: seq<Joint>, es: seq<Step>)
    requires j.transport.writer == Transport.Holding(f) && ClientUp(j)
    requires j.adapter.link.client == Some(f.live.client) && t.authorize < f.expires && t.write < f.expires
    requires Transport.Backed(j.adapter, Env(t.authorize, true), f.live)
    ensures Path(js, es) && js[0] == j
    ensures js[|es|].transport.written == j.transport.written + [Transport.Sent(f, t.write)]
  {
    var ask := Carry(Transport.Authorize(Env(t.authorize, true), j.adapter));
    var write := Carry(Transport.Write(t.write, true));
    var j1 := After(j, ask);
    js, es := [j, j1, After(j1, write)], [ask, write];
  }

  /** What the adapter stands behind is written to the socket, if it is the worker's only publication. */
  lemma JobIsDelivered(j: Joint, live: Live, t: Times) returns (js: seq<Joint>, es: seq<Step>)
    requires WithJob(j, live) && InTime(t, live.expiresAt)
    requires Transport.Backed(j.adapter, Env(t.approve, true), live)
    requires Transport.Backed(j.adapter, Env(t.authorize, true), live)
    ensures Path(js, es) && js[0] == j
    ensures js[|es|].transport.written == j.transport.written + [Delivered(live, t)]
  {
    var ks, fs;
    js, es := WorkerTakes(j, live);
    ks, fs := WorkerOffers(js[|es|], live, t);
    PathsJoin(js, es, ks, fs);
    js, es := js + ks[1..], es + fs;
    var f := Delivered(live, t).frame;
    ks, fs := WriterTakes(js[|es|], f);
    PathsJoin(js, es, ks, fs);
    js, es := js + ks[1..], es + fs;
    ks, fs := WriterWrites(js[|es|], f, t);
    PathsJoin(js, es, ks, fs);
    js, es := js + ks[1..], es + fs;
  }

  // ---- a position ----

  /** The grant stays in force at this instant, and the fix is not too old then. */
  predicate StillGood(s: State, now: Time, captured: Time) {
    InForce(s, Env(now, true)) && Age(now, captured)
  }

  /** The position that a usable fix becomes. */
  function PositionOf(s: State, now: Time, captured: Time): Live
    requires s.link.client.Some? && s.consent.grant.Some? && Bound(s.consent.grant.value)
  {
    var g := s.consent.grant.value;
    Live(s.link.client.value, s.link.connection,
         PositionPub(g.session.value, g.member.value, g.stream.value, g.revision, g.epoch, s.source.generation,
                     captured, s.source.sequence + 1), now + 5 * SECOND)
  }

  /** The adapter would queue a position for this fix. */
  predicate FixIsDue(s: State, env: Env, captured: Time) {
    && env.now > 0 && s.phase == Serving && UsableFix(s, env, captured) && !s.source.closed
    && (s.source.estimator.Some? ==> captured > s.source.estimator.value)
    && MaySend(s, env) && CadenceOver(s, env.now)
    && SafePositive(s.source.sequence + 1) && SafePositive(UnixMilli(captured))
  }

  /**
   A fix that is due reaches the socket as a position, with the grant's names and the next number: the steps from
   the GPS message to the write can be taken from rest, while the grant is in force and no second passes.
   */
  lemma DueFixIsWritten(j: Joint, now: Time, captured: Time, t: Times) returns (js: seq<Joint>, es: seq<Step>)
    requires AtRest(j) && FixIsDue(j.adapter, Env(now, true), captured) && InTime(t, now + 5 * SECOND)
    requires StillGood(j.adapter, t.approve, captured) && StillGood(j.adapter, t.authorize, captured)
    ensures Path(js, es) && js[0] == j && |es| > 0
    ensures es[0] == Adapt(Runs.Input(Env(now, true), Runs.GpsIn(Some(captured), true)), false)
    ensures js[|es|].transport.written == j.transport.written + [Delivered(PositionOf(j.adapter, now, captured), t)]
  {
    var live := PositionOf(j.adapter, now, captured);
    var first := Adapt(Runs.Input(Env(now, true), Runs.GpsIn(Some(captured), true)), false);
    var k := FixIsHandled(j, now, captured);
    PositionIsAuthorizedIff(k.adapter, Env(t.approve, true), live.pub);
    PositionIsAuthorizedIff(k.adapter, Env(t.authorize, true), live.pub);
    var ks, fs := JobIsDelivered(k, live, t);
    PathsJoin([j, k], [first], ks, fs);
    js, es := [j, k] + ks[1..], [first] + fs;
  }

  lemma FixIsHandled(j: Joint, now: Time, captured: Time) returns (k: Joint)
    requires AtRest(j) && FixIsDue(j.adapter, Env(now, true), captured)
    ensures var s := j.adapter;
            && Path([j, k], [Adapt(Runs.Input(Env(now, true), Runs.GpsIn(Some(captured), true)), false)])
            && WithJob(k, PositionOf(s, now, captured)) && k.transport == j.transport
            && k.adapter.consent == s.consent && k.adapter.journal == s.journal && k.adapter.link == s.link
            && !k.adapter.source.closed && k.adapter.source.generation == s.source.generation
  {
    FixIsQueued(j.adapter, Env(now, true), captured);
    k := Adapted(j, Runs.Input(Env(now, true), Runs.GpsIn(Some(captured), true)));
  }

  /** An event at the adapter, as a step of the joint system. */
  lemma Adapted(j: Joint, i: Runs.Input) returns (k: Joint)
    requires Runs.Enabled(j.adapter, i) && i.env.up && ClientUp(j) && (i.event.GpsIn? || i.event.SnapshotIn?)
    ensures Path([j, k], [Adapt(i, false)])
    ensures k == j.(adapter := Runs.Next(j.adapter, i),
                    pool := Absorb(j.pool, j.adapter, Runs.Next(j.adapter, i), false))
  {
    k := After(j, Adapt(i, false));
  }

  // ---- a query ----

  /** The snapshot has the adapter ask the server about the journal's stop. */
  predicate QueryIsDue(s: State, env: Env, st: LocalStop) {
    env.now > 0 && Answers(s, env, st) && s.journal.probes[st.challenge].purpose != ApplyConfirmation
    && Asks(st) && Room(s, env)
  }

  function QueryOf(s: State, now: Time, st: LocalStop): Live
    requires s.link.client.Some? && st.op.Some? && st.challenge in s.journal.probes
  {
    Live(s.link.client.value, s.link.connection, StopPub(st.op.value, st.expected, st.challenge, Query),
         Least(s.journal.probes[st.challenge].deadline, now + 10 * SECOND))
  }

  /** The query stays open at this instant. */
  predicate StillOpen(live: Live, now: Time, later: Time) {
    now <= later <= live.expiresAt
  }

  /**
   A snapshot of a prepared or uncertain stop has its query reach the socket: the steps from the snapshot to the
   write can be taken from rest, while the attempt is open and no second passes.
   */
  lemma DueQueryIsWritten(j: Joint, i: Runs.Input, t: Times) returns (js: seq<Joint>, es: seq<Step>)
    requires AtRest(j) && i.env.up && i.event.SnapshotIn? && Runs.Enabled(j.adapter, i)
    requires QueryIsDue(j.adapter, i.env, i.event.state)
    requires var live := QueryOf(j.adapter, i.env.now, i.event.state);
             && InTime(t, live.expiresAt)
             && StillOpen(live, i.env.now, t.approve) && StillOpen(live, i.env.now, t.authorize)
    ensures Path(js, es) && js[0] == j && |es| > 0 && es[0] == Adapt(i, false)
    ensures js[|es|].transport.written == j.transport.written +
                                          [Delivered(QueryOf(j.adapter, i.env.now, i.event.state), t)]
  {
    var live := QueryOf(j.adapter, i.env.now, i.event.state);
    var m := SnapshotIsHandled(j, i);
    var k := QueryIsHandedOver(m, live);
    StopIsAuthorizedIff(k.adapter, Env(t.approve, true), live.pub);
    StopIsAuthorizedIff(k.adapter, Env(t.authorize, true), live.pub);
    var ks, fs := JobIsDelivered(k, live, t);
    PathsJoin([j, m], [Adapt(i, false)], [m, k], [Hand(live)]);
    PathsJoin([j, m] + [m, k][1..], [Adapt(i, false)] + [Hand(live)], ks, fs);
    js, es := [j, m] + [m, k][1..] + ks[1..], [Adapt(i, false)] + [Hand(live)] + fs;
  }

  lemma SnapshotIsHandled(j: Joint, i: Runs.Input) returns (k: Joint)
    requires AtRest(j) && i.env.up && i.event.SnapshotIn? && Runs.Enabled(j.adapter, i)
    requires QueryIsDue(j.adapter, i.env, i.event.state)
    ensures var live := QueryOf(j.adapter, i.env.now, i.event.state);
            var st := i.event.state;
            && Path([j, k], [Adapt(i, false)]) && AtRest(k) && k.transport == j.transport
            && k.adapter.link == j.adapter.link && k.adapter.journal.epoch == j.adapter.journal.epoch
            && live in k.adapter.log.stops && k.adapter.journal.state == Some(st)
            && st.challenge in k.adapter.journal.attempts
            && k.adapter.journal.attempts[st.challenge] ==
               NewAttempt(j.adapter, i.env, st, Query, live.expiresAt)
  {
    k := Adapted(j, i);
    var e := i.event;
    SnapshotQueriesOnce(j.adapter, i.env, e.state, e.evict, e.probe);
    assert k.adapter == OnSnapshot(j.adapter, i.env, e.state, e.evict, e.probe);
  }

  lemma SnapshotQueriesOnce(s: State, env: Env, st: LocalStop, evict: Id, id: Option<Id>)
    requires QueryIsDue(s, env, st)
    ensures var t := OnSnapshot(s, env, st, evict, id);
            var live := QueryOf(s, env.now, st);
            && t.link == s.link && t.journal.epoch == s.journal.epoch && t.log.feed == s.log.feed
            && live in t.log.stops && t.journal.state == Some(st) && st.challenge in t.journal.attempts
            && t.journal.attempts[st.challenge] == NewAttempt(s, env, st, Query, live.expiresAt)
  {
    AnswerIsTaken(s, env, st, evict, id);
    SnapshotQueries(s, env, st, evict, id);
    SnapshotRecordsAttempt(s, env, st, evict, id);
  }

  lemma QueryIsHandedOver(j: Joint, live: Live) returns (k: Joint)
    requires AtRest(j) && live in j.adapter.log.stops && live.pub.StopPub?
    requires j.adapter.link.client == Some(live.client)
    ensures Path([j, k], [Hand(live)]) && WithJob(k, live) && k.adapter == j.adapter && k.transport == j.transport
  {
    k := After(j, Hand(live));
  }
}
