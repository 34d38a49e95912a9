/**
 Runs of the adapter: every interleaving of Redis messages, server messages, connection
 changes, settings refreshes, clock ticks and steps of the Redis worker.
 */
module AdapterRuns {
  import opened Basics
  import opened Messages
  import opened AdapterModel

  /** What can happen. An optional identifier is a freshly drawn UUID, or None when drawing failed. */
  datatype Event =
    | ConnectBegin(client: nat)
    | ConnectFinish(client: nat, attempt: nat, connection: Option<Id>, hello: Option<Id>, probe: Option<Id>)
    | Disconnected(client: nat)
    | RecoveryBegin
    | Refresh(blocked: bool, hello: Option<Id>, first: Option<Id>, second: Option<Id>)
    | RecoveryDone(probe: Option<Id>)
    | FailClosed
    | SnapshotIn(state: LocalStop, evict: Id, probe: Option<Id>)
    | ActivityIn(activity: Activity, victim: Id)
    | GpsIn(captured: Option<Time>, fixOk: bool)
    | ControlIn(control: Control, probe: Option<Id>)
    | PeerIn(position: PeerPosition)
    | PeerStatusIn(status: PeerStatus)
    | Tick
    | RedisTake
    | RedisDeliver

  datatype Input = Input(env: Env, event: Event)

  /** The message was accepted by its decoder. */
  predicate WellFormed(e: Event) {
    match e
    case ConnectFinish(_, _, connection, _, _) => connection != Some("")
    case SnapshotIn(state, _, _) => ValidLocalStop(state)
    case ActivityIn(activity, _) => ValidActivity(activity)
    case ControlIn(control, _) => ValidControl(control)
    case PeerIn(position) => ValidPeerPosition(position)
    case PeerStatusIn(status) => ValidPeerStatus(status)
    case _ => true
  }

  /** A challenge that pruning removes is one of the oldest. */
  predicate OldestChallenge(m: map<Id, Time>, now: Time, victim: Id) {
    var recent := map c | c in m && now - m[c] < LEASE_DURATION :: m[c];
    |recent| >= 10 ==> victim in recent && forall c | c in recent :: recent[victim] <= recent[c]
  }

  /**
   The event can happen here. The Redis loop handles messages only while it serves, re-reads
   settings only between a recovery's begin and the next failure, and starts a recovery only
   after its subscriptions were renewed; what a map loses is one of the entries the loop may pick.
   */
  predicate Enabled(s: State, i: Input) {
    && i.env.now > 0 && WellFormed(i.event)
    && match i.event
       case RecoveryBegin => s.phase.Subscribing?
       case Refresh(_, _, _, _) => !s.phase.Subscribing?
       case RecoveryDone(_) => s.phase.Recovering?
       case SnapshotIn(st, evict, _) =>
         s.phase.Serving? && (|s.journal.used| >= 10 ==> evict in s.journal.used || evict == st.challenge)
       case ActivityIn(a, victim) =>
         s.phase.Serving? && OldestChallenge(s.consent.challenges[a.challenge := i.env.now], i.env.now, victim)
       case GpsIn(_, _) => s.phase.Serving?
       case _ => true
  }

  function Next(s: State, i: Input): State
    requires WellFormed(i.event)
  {
    match i.event
    case ConnectBegin(client) => OnConnectBegin(s, i.env, client)
    case ConnectFinish(client, attempt, connection, hello, probe) =>
      OnConnectFinish(s, i.env, client, attempt, connection, hello, probe)
    case Disconnected(client) => OnDisconnected(s, client)
    case RecoveryBegin => OnRecoveryBegin(s)
    case Refresh(blocked, hello, first, second) => OnRefresh(s, i.env, blocked, hello, first, second)
    case RecoveryDone(probe) => OnRecoveryDone(s, i.env, probe)
    case FailClosed => OnFailClosed(s)
    case SnapshotIn(state, evict, probe) => OnSnapshot(s, i.env, state, evict, probe)
    case ActivityIn(activity, victim) => OnActivity(s, i.env, activity, victim)
    case GpsIn(captured, fixOk) => OnGps(s, i.env, captured, fixOk)
    case ControlIn(control, probe) => OnControl(s, i.env, control, probe)
    case PeerIn(position) => OnPeer(s, i.env, position)
    case PeerStatusIn(status) => OnPeerStatus(s, i.env, status)
    case Tick => OnTick(s, i.env)
    case RedisTake => OnRedisTake(s)
    case RedisDeliver => OnRedisDeliver(s, i.env)
  }

  /** Step `k` takes the state to its successor. */
  ghost predicate StepAt(ss: seq<State>, es: seq<Input>, k: nat)
    requires |ss| == |es| + 1 && k < |es|
  {
    Enabled(ss[k], es[k]) && ss[k + 1] == Next(ss[k], es[k])
  }

  /** `ss` are the states of a run that starts in the initial state and takes the inputs `es`. */
  ghost predicate IsRun(ss: seq<State>, es: seq<Input>) {
    && |ss| == |es| + 1
    && ss[0] == Init()
    && forall k: nat | k < |es| :: StepAt(ss, es, k)
  }

  ghost predicate ClockNeverGoesBack(es: seq<Input>) {
    forall j, k | 0 <= j <= k < |es| :: es[j].env.now <= es[k].env.now
  }

  function Drawn1(id: Option<Id>): set<Id> {
    if id.Some? then {id.value} else {}
  }

  /** The identifiers that the adapter draws in this event. */
  function Drawn(e: Event): set<Id> {
    match e
    case ConnectFinish(_, _, connection, hello, probe) => Drawn1(connection) + Drawn1(hello) + Drawn1(probe)
    case Refresh(_, hello, first, second) => Drawn1(hello) + Drawn1(first) + Drawn1(second)
    case RecoveryDone(probe) => Drawn1(probe)
    case SnapshotIn(_, _, probe) => Drawn1(probe)
    case ControlIn(_, probe) => Drawn1(probe)
    case _ => {}
  }

  /** No UUID is drawn twice in the run. */
  ghost predicate DrawsAreFresh(es: seq<Input>) {
    && (forall j, k | 0 <= j < k < |es| :: Drawn(es[j].event) !! Drawn(es[k].event))
    && (forall k | 0 <= k < |es| && es[k].event.Refresh? && es[k].event.first.Some? ::
          es[k].event.first != es[k].event.second)
  }
}
