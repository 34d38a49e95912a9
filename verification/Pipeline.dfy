/**
 The adapter, its egress worker and the live transport as one system. The adapter's feed goes into the
 worker's latest-only queue, the worker offers one publication at a time to the transport, and the
 socket writer takes it from there; the worker and the writer each ask the adapter, in the state in
 which it then is, whether the publication still stands. The adapter's view of its connection is the
 transport's. All steps interleave freely.
 */
module Pipeline {
  import opened Basics
  import opened Messages
  import opened AdapterModel
  import Runs = AdapterRuns
  import Transport = LiveTransport
  import Egress

  /** What the worker has done with its job: nothing yet, asked the adapter, or offered or skipped it. */
  datatype Offer = Untouched | Approved | Offered

  datatype Joint = Joint(adapter: State, pool: Egress.Pool, transport: Transport.Transport, offer: Offer)

  datatype Step =
    | Adapt(input: Runs.Input, dropStatus: bool)
    | Hand(live: Live)
    | Work(move: Egress.Move)
    | Approve(env: Env)
    | Carry(event: Transport.Event)

  function Start(): Joint {
    Joint(Init(), Egress.Idle(), Transport.Start(), Offered)
  }

  /** The adapter's client is connected. */
  predicate ClientUp(j: Joint) {
    j.adapter.link.client.Some? && Transport.Up(j.transport, j.adapter.link.client.value)
  }

  /** Whether the client that this event is about is connected. */
  predicate UpFor(j: Joint, e: Runs.Event) {
    match e
    case ConnectBegin(client) => Transport.Up(j.transport, client)
    case ConnectFinish(client, _, _, _, _) => Transport.Up(j.transport, client)
    case _ => ClientUp(j)
  }

  /**
   The step can happen now. Hellos, activities and stops reach the worker's queue some time after the
   adapter sent them; the worker calls the transport as publisher 0 and waits for the call to return.
   */
  ghost predicate Can(j: Joint, step: Step) {
    match step
    case Adapt(i, _) => Runs.Enabled(j.adapter, i) && i.env.up == UpFor(j, i.event)
    case Hand(live) =>
      (live in j.adapter.log.notices || live in j.adapter.log.stops) && !live.pub.PositionPub? && !live.pub.StatusPub?
    case Work(m) =>
      && Egress.CanMove(j.pool, m) && !m.Queue? && !m.DropPositions? && !m.DropStatuses?
      && (m.FinishJob? ==> j.offer.Offered? && 0 !in j.transport.publishers)
    case Approve(env) => j.pool.worker.Handling? && j.offer.Untouched? && env.up == ClientUp(j)
    case Carry(e) => Transport.Can(j.transport, e) && CanCarry(j, e)
  }

  ghost predicate CanCarry(j: Joint, e: Transport.Event) {
    match e
    case Check(p, live, _) => p == 0 && j.offer.Approved? && j.pool.worker == Egress.Handling(Egress.Publication(live))
    case Authorize(env, adapter) => adapter == j.adapter && env.up == ClientUp(j)
    case _ => true
  }

  /** The worker's queue after an adapter step: a bump drops the pending position, a new item of the feed is put. */
  ghost function Absorb(p: Egress.Pool, s: State, t: State, dropStatus: bool): Egress.Pool {
    var p1 := if t.source.generation != s.source.generation then Egress.Moved(p, Egress.DropPositions) else p;
    var p2 := if dropStatus then Egress.Moved(p1, Egress.DropStatuses) else p1;
    if |t.log.feed| > |s.log.feed| then Egress.Moved(p2, Egress.Queue(t.log.feed[|s.log.feed|])) else p2
  }

  /** The worker still stands behind its job: connected, not expired, and authorized by the adapter. */
  predicate Stands(j: Joint, env: Env, job: Egress.Job) {
    && job.Publication? && Transport.Up(j.transport, job.live.client)
    && (job.live.expiresAt == 0 || env.now < job.live.expiresAt)
    && Transport.Backed(j.adapter, env, job.live)
  }

  ghost function After(j: Joint, step: Step): Joint
    requires Can(j, step)
  {
    match step
    case Adapt(i, dropStatus) =>
      var t := Runs.Next(j.adapter, i);
      j.(adapter := t, pool := Absorb(j.pool, j.adapter, t, dropStatus))
    case Hand(live) => j.(pool := Egress.Moved(j.pool, Egress.Queue(live)))
    case Work(m) => j.(pool := Egress.Moved(j.pool, m), offer := if m.TakeJob? then Untouched else j.offer)
    case Approve(env) => j.(offer := if Stands(j, env, j.pool.worker.job) then Approved else Offered)
    case Carry(e) => j.(transport := Transport.After(j.transport, e), offer := if e.Check? then Offered else j.offer)
  }

  ghost predicate StepAt(js: seq<Joint>, es: seq<Step>, k: nat)
    requires |js| == |es| + 1 && k < |es|
  {
    Can(js[k], es[k]) && js[k + 1] == After(js[k], es[k])
  }

  ghost predicate IsRun(js: seq<Joint>, es: seq<Step>) {
    |js| == |es| + 1 && js[0] == Start() && forall k: nat | k < |es| :: StepAt(js, es, k)
  }
}
