/**
 What the guards of adapter, worker and transport mean together, in every joint run: a position that
 reaches the socket was authorized by the adapter in its state of that moment, nothing between its
 queueing and its authorization had voided it, and positions reach the socket in the order of capture.
 */
module EndToEnd {
  import opened Basics
  import opened Messages
  import opened AdapterModel
  import opened LatestQueue
  import Runs = AdapterRuns
  import Transport = LiveTransport
  import Egress
  import opened Pipeline
  import opened ConsentProofs
  import opened SourceProofs
  import opened PipelineParts

  // ---- where positions are ----

  function Captured(live: Live): Option<Time> {
    if live.pub.PositionPub? then Some(live.pub.captured) else None
  }

  const POSITION_SLOT := Egress.LiveSlot(Transport.PositionKind)

  /** The publication that waits in the worker's queue, if it is a position. */
  function Waiting(p: Egress.Pool): Option<Live> {
    if POSITION_SLOT in p.queue.pending && p.queue.pending[POSITION_SLOT].item.Publication?
    then Some(p.queue.pending[POSITION_SLOT].item.live) else None
  }

  /** The publication that the worker holds and the transport does not have yet. */
  function Working(j: Joint): Option<Live> {
    if j.pool.worker.Handling? && j.pool.worker.job.Publication? &&
       (!j.offer.Offered? || (0 in j.transport.publishers && j.transport.publishers[0].Checked?))
    then Some(j.pool.worker.job.live) else None
  }

  /** The frame in the transport's position slot. */
  function Slotted(t: Transport.Transport): Option<Live> {
    if Transport.PositionKind in t.queue.pending then Some(t.queue.pending[Transport.PositionKind].item.live) else None
  }

  /** The frame in the socket writer's hands. */
  function Held(t: Transport.Transport): Option<Live> {
    if t.writer.Holding? || t.writer.Cleared? then Some(t.writer.frame.live) else None
  }

  predicate IsPosition(live: Option<Live>) {
    live.Some? && live.value.pub.PositionPub?
  }

  /** If both are positions, the first was captured before the second. */
  predicate Earlier(a: Option<Live>, b: Option<Live>) {
    IsPosition(a) && IsPosition(b) ==> a.value.pub.captured < b.value.pub.captured
  }

  /** A position is on the adapter's feed, captured no later than the latest fix. */
  predicate Fed(s: State, a: Option<Live>) {
    IsPosition(a) ==> a.value in s.log.feed && a.value.pub.captured <= s.source.observedAt
  }

  predicate WrittenBefore(written: seq<Transport.Sent>, a: Option<Live>) {
    forall n | 0 <= n < |written| :: Earlier(Some(written[n].frame.live), a)
  }

  /** From socket to worker's queue, positions are in the order of capture. */
  predicate Ordered(j: Joint) {
    var held, slotted, working, waiting := Held(j.transport), Slotted(j.transport), Working(j), Waiting(j.pool);
    && Earlier(held, slotted) && Earlier(held, working) && Earlier(held, waiting)
    && Earlier(slotted, working) && Earlier(slotted, waiting) && Earlier(working, waiting)
    && WrittenBefore(j.transport.written, held) && WrittenBefore(j.transport.written, slotted)
    && WrittenBefore(j.transport.written, working) && WrittenBefore(j.transport.written, waiting)
    && (forall m, n | 0 <= m < n < |j.transport.written| ::
          Earlier(Some(j.transport.written[m].frame.live), Some(j.transport.written[n].frame.live)))
  }

  predicate AllFed(j: Joint) {
    && Fed(j.adapter, Held(j.transport)) && Fed(j.adapter, Slotted(j.transport)) && Fed(j.adapter, Working(j))
    && Fed(j.adapter, Waiting(j.pool))
    && (forall n | 0 <= n < |j.transport.written| :: Fed(j.adapter, Some(j.transport.written[n].frame.live)))
  }

  /** Only the worker publishes, what is in the transport's hands is its job, and slots hold what they are named for. */
  predicate Tidy(j: Joint) {
    && (forall p | p in j.transport.publishers :: p == 0)
    && (0 in j.transport.publishers ==> j.pool.worker.Handling? && j.offer.Offered?)
    && (0 in j.transport.publishers && j.transport.publishers[0].Checked? ==>
          j.pool.worker.job == Egress.Publication(j.transport.publishers[0].frame.live))
    && (forall k | k in j.transport.queue.pending :: Transport.KindOf(j.transport.queue.pending[k].item.live.pub) == k)
    && TidyPool(j.pool)
  }

  predicate TidyPool(p: Egress.Pool) {
    forall k | k in p.queue.pending ::
      match k
      case LiveSlot(kind) => p.queue.pending[k].item.Publication?
          && Transport.KindOf(p.queue.pending[k].item.live.pub) == kind
      case UnsubscribeSlot => p.queue.pending[k].item.Unsubscribe?
  }

  /** A position that waits in the worker's queue has the adapter's current generation. */
  predicate Current(j: Joint) {
    IsPosition(Waiting(j.pool)) ==> Waiting(j.pool).value.pub.generation == j.adapter.source.generation
  }

  predicate Inv(j: Joint) {
    Tidy(j) && Ordered(j) && AllFed(j) && Current(j)
  }

  // ---- every step keeps it ----

  lemma FedStays(s: State, t: State, a: Option<Live>)
    requires Fed(s, a) && FeedGrowth(s, t) && s.source.observedAt <= t.source.observedAt
    ensures Fed(t, a)
  {
    if t.log.feed != s.log.feed {
      assert t.log.feed == s.log.feed + [t.log.feed[|s.log.feed|]];
    }
  }

  lemma AbsorbKeepsRest(p: Egress.Pool, s: State, t: State, dropStatus: bool)
    ensures Absorb(p, s, t, dropStatus).worker == p.worker
  {
  }

  /** What waits after an adapter step: a new position, the old publication, or nothing. */
  lemma AbsorbWaiting(p: Egress.Pool, s: State, t: State, dropStatus: bool)
    ensures var q := Absorb(p, s, t, dropStatus);
            || (|t.log.feed| > |s.log.feed| && Waiting(q) == Some(t.log.feed[|s.log.feed|])
                && t.log.feed[|s.log.feed|].pub.PositionPub?)
            || (Waiting(q) == Waiting(p) && (t.source.generation == s.source.generation || Waiting(p).None?))
            || Waiting(q).None?
  {
  }

  lemma AbsorbTidy(p: Egress.Pool, s: State, t: State, dropStatus: bool)
    requires TidyPool(p)
    ensures TidyPool(Absorb(p, s, t, dropStatus))
  {
  }

  lemma AdaptKeepsInv(j: Joint, i: Runs.Input, dropStatus: bool, t: State)
    requires Inv(j) && FeedEffect(j.adapter, i, t)
    ensures Inv(j.(adapter := t, pool := Absorb(j.pool, j.adapter, t, dropStatus)))
  {
    var s := j.adapter;
    var k := j.(adapter := t, pool := Absorb(j.pool, s, t, dropStatus));
    FeedGrows(s, i, t);
    AbsorbKeepsRest(j.pool, s, t, dropStatus);
    AbsorbWaiting(j.pool, s, t, dropStatus);
    AbsorbTidy(j.pool, s, t, dropStatus);
    FedStays(s, t, Held(j.transport));
    FedStays(s, t, Slotted(j.transport));
    FedStays(s, t, Working(j));
    FedStays(s, t, Waiting(j.pool));
    forall n | 0 <= n < |j.transport.written|
      ensures Fed(t, Some(j.transport.written[n].frame.live))
    {
      FedStays(s, t, Some(j.transport.written[n].frame.live));
    }
    if |t.log.feed| > |s.log.feed| && Waiting(k.pool) == Some(t.log.feed[|s.log.feed|]) {
      NewestIsLast(j, i, t);
    }
  }

  /** A new position was captured after everything on its way, and carries the current generation. */
  lemma NewestIsLast(j: Joint, i: Runs.Input, t: State)
    requires Inv(j) && FeedEffect(j.adapter, i, t) && |t.log.feed| > |j.adapter.log.feed|
    requires t.log.feed[|j.adapter.log.feed|].pub.PositionPub?
    ensures var live := Some(t.log.feed[|j.adapter.log.feed|]);
            && Fed(t, live) && live.value.pub.generation == t.source.generation
            && Earlier(Held(j.transport), live) && Earlier(Slotted(j.transport), live) && Earlier(Working(j), live)
            && WrittenBefore(j.transport.written, live)
  {
    var pub := t.log.feed[|j.adapter.log.feed|].pub;
    FeedGrows(j.adapter, i, t);
    assert QueuesPositionAt(j.adapter, t, pub);
    PositionFromInput(j.adapter, i, t, pub);
    PositionStep(j.adapter, i, t, pub);
    forall n | 0 <= n < |j.transport.written|
      ensures Earlier(Some(j.transport.written[n].frame.live), Some(t.log.feed[|j.adapter.log.feed|]))
    {
      assert Fed(j.adapter, Some(j.transport.written[n].frame.live));
    }
  }

  lemma HandKeepsInv(j: Joint, live: Live)
    requires Inv(j) && !live.pub.PositionPub?
    ensures Inv(j.(pool := Egress.Moved(j.pool, Egress.Queue(live))))
  {
    assert Waiting(Egress.Moved(j.pool, Egress.Queue(live))) == Waiting(j.pool);
  }

  lemma TakeKeepsInv(j: Joint, slot: Egress.Slot)
    requires Inv(j) && Egress.CanMove(j.pool, Egress.TakeJob(slot))
    ensures Inv(j.(pool := Egress.Moved(j.pool, Egress.TakeJob(slot)), offer := Untouched))
  {
    var k := j.(pool := Egress.Moved(j.pool, Egress.TakeJob(slot)), offer := Untouched);
    if slot == POSITION_SLOT {
      assert Waiting(k.pool).None? && Working(k) == Waiting(j.pool);
    } else {
      assert Waiting(k.pool) == Waiting(j.pool);
      assert slot in j.pool.queue.pending;
      assert !IsPosition(Working(k));
    }
  }

  lemma WorkKeepsInv(j: Joint, m: Egress.Move)
    requires Inv(j) && Egress.CanMove(j.pool, m) && !m.Queue? && !m.DropPositions? && !m.DropStatuses? && !m.TakeJob?
    requires m.FinishJob? ==> j.offer.Offered? && 0 !in j.transport.publishers
    ensures Inv(j.(pool := Egress.Moved(j.pool, m)))
  {
    var k := j.(pool := Egress.Moved(j.pool, m));
    assert Waiting(k.pool) == Waiting(j.pool) || Waiting(k.pool).None?;
    assert Working(k) == Working(j);
  }

  lemma ApproveKeepsInv(j: Joint, offer: Offer)
    requires Inv(j) && j.offer.Untouched?
    ensures Inv(j.(offer := offer))
  {
    assert Working(j.(offer := offer)) == Working(j) || Working(j.(offer := offer)).None?;
  }

  // ---- steps of the transport ----

  /**
   The transport moves a position from its slot to the writer and on to the socket, or loses it; others come and go.
   */
  predicate Shifts(s: Transport.Transport, t: Transport.Transport) {
    && (Slotted(t) == Slotted(s) || Slotted(t).None?)
    && (|| Held(t) == Held(s) || !IsPosition(Held(t))
        || (Held(s).None? && Slotted(t).None? && Held(t) == Slotted(s)))
    && (|| t.written == s.written
        || (Held(t).None? && Held(s).Some? && |t.written| == |s.written| + 1 && t.written[..|s.written|] == s.written &&
            Some(t.written[|s.written|].frame.live) == Held(s)))
  }

  lemma CarryEffect(s: Transport.Transport, e: Transport.Event)
    requires Transport.Can(s, e) && !e.Insert? && !e.Check?
    requires forall k | k in s.queue.pending :: Transport.KindOf(s.queue.pending[k].item.live.pub) == k
    ensures var t := Transport.After(s, e);
            && Shifts(s, t) && (t.publishers == s.publishers || (e.Post? && t.publishers == s.publishers - {e.p}))
            && (forall k | k in t.queue.pending :: k in s.queue.pending && t.queue.pending[k] == s.queue.pending[k])
  {
  }

  lemma CarryKeepsInv(j: Joint, e: Transport.Event)
    requires Inv(j) && Transport.Can(j.transport, e) && !e.Insert? && !e.Check?
    ensures Inv(j.(transport := Transport.After(j.transport, e)))
  {
    var k := j.(transport := Transport.After(j.transport, e));
    CarryEffect(j.transport, e);
    assert Working(k) == Working(j);
    ShiftKeepsOrder(j, k.transport);
    ShiftKeepsFed(j, k.transport);
  }

  lemma WrittenSoFar(s: Transport.Transport, t: Transport.Transport, n: nat)
    requires Shifts(s, t) && n < |t.written|
    ensures if n < |s.written| then t.written[n] == s.written[n] else Some(t.written[n].frame.live) == Held(s)
  {
    if t.written != s.written && n < |s.written| {
      assert t.written[..|s.written|][n] == t.written[n];
    }
  }

  lemma ShiftKeepsOrder(j: Joint, t: Transport.Transport)
    requires Ordered(j) && Shifts(j.transport, t) && Working(j.(transport := t)) == Working(j)
    ensures Ordered(j.(transport := t))
  {
    forall n: nat | n < |t.written|
      ensures if n < |j.transport.written| then t.written[n] == j.transport.written[n]
              else Some(t.written[n].frame.live) == Held(j.transport)
    {
      WrittenSoFar(j.transport, t, n);
    }
  }

  lemma ShiftKeepsFed(j: Joint, t: Transport.Transport)
    requires AllFed(j) && Shifts(j.transport, t) && Working(j.(transport := t)) == Working(j)
    ensures AllFed(j.(transport := t))
  {
    forall n: nat | n < |t.written|
      ensures Fed(j.adapter, Some(t.written[n].frame.live))
    {
      WrittenSoFar(j.transport, t, n);
    }
  }

  lemma CheckKeepsInv(j: Joint, live: Live, now: Time)
    requires Inv(j) && Transport.Can(j.transport, Transport.Check(0, live, now))
             && CanCarry(j, Transport.Check(0, live, now))
    ensures Inv(j.(transport := Transport.After(j.transport, Transport.Check(0, live, now)), offer := Offered))
  {
    var k := j.(transport := Transport.After(j.transport, Transport.Check(0, live, now)), offer := Offered);
    assert Working(k) == Working(j) || Working(k).None?;
  }

  lemma InsertKeepsInv(j: Joint, p: nat)
    requires Inv(j) && Transport.Can(j.transport, Transport.Insert(p))
    ensures Inv(j.(transport := Transport.After(j.transport, Transport.Insert(p))))
  {
    var k := j.(transport := Transport.After(j.transport, Transport.Insert(p)));
    assert p == 0 && Working(j) == Some(j.transport.publishers[0].frame.live) && Working(k).None?;
    if IsPosition(Working(j)) {
      assert Slotted(k.transport) == Working(j);
    } else {
      assert Slotted(k.transport) == Slotted(j.transport);
    }
  }

  lemma StepKeepsInv(j: Joint, step: Step)
    requires Inv(j) && Can(j, step)
    ensures Inv(After(j, step))
  {
    match step
    case Adapt(i, dropStatus) =>
      NextFeed(j.adapter, i);
      AdaptKeepsInv(j, i, dropStatus, Runs.Next(j.adapter, i));
    case Hand(live) => HandKeepsInv(j, live);
    case Work(m) =>
      if m.TakeJob? {
        TakeKeepsInv(j, m.slot);
      } else {
        WorkKeepsInv(j, m);
      }
    case Approve(env) => ApproveKeepsInv(j, After(j, step).offer);
    case Carry(e) =>
      if e.Check? {
        CheckKeepsInv(j, e.live, e.now);
      } else if e.Insert? {
        InsertKeepsInv(j, e.p);
      } else {
        CarryKeepsInv(j, e);
      }
  }

  lemma {:induction false} RunKeepsInv(js: seq<Joint>, es: seq<Step>, n: nat)
    requires IsRun(js, es) && n < |js|
    ensures Inv(js[n])
  {
    if n > 0 {
      RunKeepsInv(js, es, n - 1);
      assert StepAt(js, es, n - 1);
      StepKeepsInv(js[n - 1], es[n - 1]);
    }
  }

  // ---- from the socket back to the feed ----

  /** This joint step has the adapter, as it is now, clear frame `f` for the socket. */
  predicate ClearsNow(j: Joint, step: Step, f: Transport.Frame) {
    step.Carry? && Transport.ClearsFrame(j.transport, step.event, f) && step.event.adapter == j.adapter &&
    step.event.env.up == ClientUp(j)
  }

  lemma {:induction false} TraceClearance(js: seq<Joint>, es: seq<Step>, k: nat) returns (i: nat)
    requires CarryTrace(js, es) && k < |js| && js[k].transport.writer.Cleared?
    ensures i < k && ClearsNow(js[i], es[i], js[k].transport.writer.frame)
    decreases k
  {
    i := k - 1;
    assert CarryAt(js, es, i);
    if es[i].Carry? {
      Transport.WriterOrigin(js[i].transport, es[i].event);
    }
    if js[i].transport.writer == js[k].transport.writer {
      i := TraceClearance(js, es, i);
    }
  }

  /** This joint step writes frame `f` to the socket. */
  predicate WritesNow(j: Joint, k: Joint, f: Transport.Frame, at: Time) {
    Transport.WritesFrame(j.transport, k.transport, f, at)
  }

  lemma WriteStep(js: seq<Joint>, es: seq<Step>, k: nat, f: Transport.Frame, at: Time)
    requires CarryTrace(js, es) && k < |es| && WritesNow(js[k], js[k + 1], f, at)
    ensures es[k].Carry? && CarryAt(js, es, k) && js[k].transport.writer == Transport.Cleared(f)
  {
    assert CarryAt(js, es, k);
    var t := js[k + 1].transport;
    assert |t.written| == |js[k].transport.written| + 1;
    assert t.written[|js[k].transport.written|] == Transport.Sent(f, at);
  }

  /** A frame is written on a socket that is up, less than a second after it was published there. */
  lemma WrittenInTime(js: seq<Joint>, es: seq<Step>, k: nat, f: Transport.Frame, at: Time)
    requires CarryTrace(js, es) && k < |es| && WritesNow(js[k], js[k + 1], f, at)
    ensures Transport.Up(js[k].transport, f.live.client) && at < f.publishedAt + SECOND && at < f.expires
  {
    TransportWithin(js, es, k);
    WriteStep(js, es, k, f, at);
    TransportWrites(js[k].transport, es[k].event, f, at);
  }

  lemma TransportWrites(t: Transport.Transport, e: Transport.Event, f: Transport.Frame, at: Time)
    requires TransportReaches(t) && Transport.Can(t, e) && Transport.WritesFrame(t, Transport.After(t, e), f, at)
    ensures Transport.Up(t, f.live.client) && at < f.publishedAt + SECOND && at < f.expires
  {
    var ss, es :| Transport.IsRun(ss, es) && ss[|es|] == t;
    TransportExtends(ss, es, e);
    var tt, fs := ss + [Transport.After(t, e)], es + [e];
    assert tt[|es|] == t && tt[|es| + 1] == Transport.After(t, e);
    var published, authorized := Transport.WrittenFramesAreCurrent(tt, fs, |es|, f, at);
  }

  // ---- what voids a position ----

  /** The step voids what was queued: a veto, a lost fix, a new stream, or the end of the held grant for any reason. */
  predicate Voids(s: State, i: Runs.Input, t: State) {
    || Vetoes(s, i) || StartsAt(s, i) || (s.consent.grant.Some? && t.consent.grant.None?)
    || (i.event.GpsIn? && LosesFix(s, i.env, i.event.captured, i.event.fixOk))
  }

  lemma ControlBumps(s: State, env: Env, c: Control, id: Option<Id>)
    requires ValidControl(c) && Voids(s, Runs.Input(env, Runs.ControlIn(c, id)), OnControl(s, env, c, id))
    ensures OnControl(s, env, c, id).source.generation > s.source.generation
  {
  }

  lemma SnapshotBumps(s: State, env: Env, st: LocalStop, evict: Id, id: Option<Id>)
    requires Voids(s, Runs.Input(env, Runs.SnapshotIn(st, evict, id)), OnSnapshot(s, env, st, evict, id))
    ensures OnSnapshot(s, env, st, evict, id).source.generation > s.source.generation
  {
  }

  lemma TickBumps(s: State, env: Env)
    requires s.consent.grant.Some? && OnTick(s, env).consent.grant.None?
    ensures OnTick(s, env).source.generation > s.source.generation
  {
  }

  lemma RefreshBumps(s: State, env: Env, blocked: bool, hello: Option<Id>, first: Option<Id>, second: Option<Id>)
    requires Voids(s, Runs.Input(env, Runs.Refresh(blocked, hello, first, second)),
             OnRefresh(s, env, blocked, hello, first, second))
    ensures OnRefresh(s, env, blocked, hello, first, second).source.generation > s.source.generation
  {
  }

  lemma GpsBumps(s: State, env: Env, captured: Option<Time>, fixOk: bool)
    requires LosesFix(s, env, captured, fixOk)
    ensures OnGps(s, env, captured, fixOk).source.generation > s.source.generation
  {
  }

  /** Whatever voids a position bumps the generation. */
  lemma VoidingBumps(s: State, i: Runs.Input)
    requires Runs.Enabled(s, i) && Voids(s, i, Runs.Next(s, i))
    ensures Runs.Next(s, i).source.generation > s.source.generation
  {
    match i.event
    case ControlIn(c, id) => ControlBumps(s, i.env, c, id);
    case SnapshotIn(st, evict, id) => SnapshotBumps(s, i.env, st, evict, id);
    case Tick => TickBumps(s, i.env);
    case Refresh(blocked, hello, first, second) => RefreshBumps(s, i.env, blocked, hello, first, second);
    case GpsIn(captured, fixOk) => GpsBumps(s, i.env, captured, fixOk);
    case _ =>
  }

  /** In this run of the adapter, whatever voids a position bumps the generation. */
  ghost predicate VoidTrace(ss: seq<State>, inputs: seq<Runs.Input>) {
    && FeedTrace(ss, inputs)
    && forall m | 0 <= m < |inputs| :: Voids(ss[m], inputs[m], ss[m + 1]) ==>
        ss[m + 1].source.generation > ss[m].source.generation
  }

  lemma RunIsVoidTrace(ss: seq<State>, inputs: seq<Runs.Input>)
    requires Runs.IsRun(ss, inputs)
    ensures VoidTrace(ss, inputs)
  {
    RunIsFeedTrace(ss, inputs);
    forall m | 0 <= m < |inputs| && Voids(ss[m], inputs[m], ss[m + 1])
      ensures ss[m + 1].source.generation > ss[m].source.generation
    {
      assert Runs.StepAt(ss, inputs, m);
      VoidingBumps(ss[m], inputs[m]);
    }
  }

  /** From step `q` that queued it up to state `n` that authorizes it, a position's generation is the adapter's. */
  lemma UnvoidedSince(ss: seq<State>, inputs: seq<Runs.Input>, q: nat, n: nat, env: Env, pub: MqttPub)
    requires FeedTrace(ss, inputs) && q < n < |ss| && QueuesPositionAt(ss[q], ss[q + 1], pub)
             && Authorized(ss[n], env, pub)
    ensures forall m | q <= m <= n :: ss[m].source.generation == pub.generation
  {
    assert FeedAt(ss, inputs, q);
    PositionFromInput(ss[q], inputs[q], ss[q + 1], pub);
    forall m | q <= m <= n
      ensures ss[m].source.generation == pub.generation
    {
      SourceGrows(ss, inputs, q, m);
      SourceGrows(ss, inputs, m, n);
    }
  }

  // ---- the theorems ----

  /** The adapter queued the position at its step `q`, and from then up to its state `n` nothing voided it. */
  ghost predicate StandsUntil(ss: seq<State>, inputs: seq<Runs.Input>, q: nat, n: nat, live: Live)
    requires |ss| == |inputs| + 1
  {
    && q < n < |ss| && QueuesPositionAt(ss[q], ss[q + 1], live.pub) && ss[q + 1].log.feed[|ss[q].log.feed|] == live
    && (forall m | q <= m <= n :: ss[m].source.generation == live.pub.generation)
    && (forall m | q <= m < n :: !Voids(ss[m], inputs[m], ss[m + 1]))
  }

  lemma QueuedAndStands(ss: seq<State>, inputs: seq<Runs.Input>, n: nat, env: Env, live: Live) returns (q: nat)
    requires VoidTrace(ss, inputs) && n < |ss| && live in ss[n].log.feed && live.pub.PositionPub?
             && Authorized(ss[n], env, live.pub)
    ensures StandsUntil(ss, inputs, q, n, live)
  {
    var a :| 0 <= a < |ss[n].log.feed| && ss[n].log.feed[a] == live;
    q := TraceFeed(ss, inputs, n, a);
    UnvoidedSince(ss, inputs, q, n, env, live.pub);
  }

  /**
   A position is written only if the adapter, in its state `at[cleared]` of the moment in which the
   writer asked, held full consent, an open source and a lease in force on this client and connection;
   and from the adapter step that queued the position up to that state, nothing voided it.
   */
  lemma WrittenPositionHadConsent(js: seq<Joint>, es: seq<Step>, k: nat, f: Transport.Frame, when: Time)
    returns (ss: seq<State>, inputs: seq<Runs.Input>, at: seq<nat>, q: nat, cleared: nat)
    requires IsRun(js, es) && k < |es| && WritesNow(js[k], js[k + 1], f, when) && f.live.pub.PositionPub?
    ensures AdapterAlong(js, es, ss, inputs, at) && cleared < k && ClearsNow(js[cleared], es[cleared], f)
    ensures StandsUntil(ss, inputs, q, at[cleared], f.live)
    ensures var s := js[cleared].adapter;
            && s == ss[at[cleared]] && ConsentInv(s) && s.consent.grant.Some? && !s.source.closed
            && s.link.client == Some(f.live.client) && s.link.connection == f.live.connection
            && 0 <= es[cleared].event.env.now - s.consent.grantAt < s.consent.grantTTL
    ensures Transport.Up(js[k].transport, f.live.client) && when < f.publishedAt + SECOND
  {
    RunIsCarryTrace(js, es);
    WrittenInTime(js, es, k, f, when);
    WriteStep(js, es, k, f, when);
    cleared := TraceClearance(js, es, k);
    RunKeepsInv(js, es, cleared);
    ss, inputs, at := AdapterWithin(js, es);
    RunKeepsConsent(ss, inputs, at[cleared]);
    RunIsVoidTrace(ss, inputs);
    q := QueuedAndStands(ss, inputs, at[cleared], es[cleared].event.env, f.live);
  }

  /** A position that waits for the worker is never stale: a bump drops it from the worker's queue. */
  lemma WaitingPositionIsCurrent(js: seq<Joint>, es: seq<Step>, n: nat)
    requires IsRun(js, es) && n < |js| && IsPosition(Waiting(js[n].pool))
    ensures Waiting(js[n].pool).value.pub.generation == js[n].adapter.source.generation
  {
    RunKeepsInv(js, es, n);
  }

  lemma {:induction false} SequenceKept(ss: seq<State>, inputs: seq<Runs.Input>, i: nat, j: nat)
    requires FeedTrace(ss, inputs) && i <= j < |ss| && forall m | i <= m < j :: !StartsAt(ss[m], inputs[m])
    ensures ss[i].source.sequence <= ss[j].source.sequence
    decreases j
  {
    if i < j {
      SequenceKept(ss, inputs, i, j - 1);
      assert FeedAt(ss, inputs, j - 1);
      NumberStep(ss[j - 1], inputs[j - 1], ss[j]);
    }
  }

  /** Of two positions of the feed the one captured later was queued later and, on one stream, has the larger number. */
  lemma FeedInOrder(ss: seq<State>, inputs: seq<Runs.Input>, n: nat, v: Live, w: Live) returns (i: nat, j: nat)
    requires FeedTrace(ss, inputs) && n < |ss| && v in ss[n].log.feed && w in ss[n].log.feed
    requires v.pub.PositionPub? && w.pub.PositionPub? && v.pub.captured < w.pub.captured
    ensures i < j < |inputs| && QueuesPositionAt(ss[i], ss[i + 1], v.pub) && QueuesPositionAt(ss[j], ss[j + 1], w.pub)
    ensures (forall m | i < m <= j :: !StartsAt(ss[m], inputs[m])) ==> v.pub.sequence < w.pub.sequence
  {
    var a :| 0 <= a < |ss[n].log.feed| && ss[n].log.feed[a] == v;
    var b :| 0 <= b < |ss[n].log.feed| && ss[n].log.feed[b] == w;
    i := TraceFeed(ss, inputs, n, a);
    j := TraceFeed(ss, inputs, n, b);
    assert FeedAt(ss, inputs, i);
    PositionStep(ss[i], inputs[i], ss[i + 1], v.pub);
    assert FeedAt(ss, inputs, j);
    PositionStep(ss[j], inputs[j], ss[j + 1], w.pub);
    if j < i {
      SourceGrows(ss, inputs, j + 1, i);
    }
    if forall m | i < m <= j :: !StartsAt(ss[m], inputs[m]) {
      assert FeedAt(ss, inputs, i);
      NumberStep(ss[i], inputs[i], ss[i + 1]);
      SequenceKept(ss, inputs, i + 1, j);
    }
  }

  /**
   Positions reach the socket in the order of capture, over the whole life of the service, sockets,
   streams and sessions included; and of two positions of one stream the later one written has the
   larger number. `i` and `j` are the adapter steps that queued them.
   */
  lemma WrittenInOrder(js: seq<Joint>, es: seq<Step>, n: nat, a: nat, b: nat)
    returns (ss: seq<State>, inputs: seq<Runs.Input>, at: seq<nat>, i: nat, j: nat)
    requires IsRun(js, es) && n < |js| && a < b < |js[n].transport.written|
    requires js[n].transport.written[a].frame.live.pub.PositionPub?
             && js[n].transport.written[b].frame.live.pub.PositionPub?
    ensures AdapterAlong(js, es, ss, inputs, at) && i < j < |inputs|
    ensures var v, w := js[n].transport.written[a].frame.live.pub, js[n].transport.written[b].frame.live.pub;
            && v.captured < w.captured
            && QueuesPositionAt(ss[i], ss[i + 1], v) && QueuesPositionAt(ss[j], ss[j + 1], w)
            && ((forall m | i < m <= j :: !StartsAt(ss[m], inputs[m])) ==> v.sequence < w.sequence)
  {
    RunKeepsInv(js, es, n);
    ss, inputs, at := AdapterWithin(js, es);
    RunIsFeedTrace(ss, inputs);
    var written := js[n].transport.written;
    assert Fed(js[n].adapter, Some(written[a].frame.live)) && Fed(js[n].adapter, Some(written[b].frame.live));
    i, j := FeedInOrder(ss, inputs, at[n], written[a].frame.live, written[b].frame.live);
  }
}
