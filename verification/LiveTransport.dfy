/**
 The live transport: any number of publishers put frames into a latest-only queue, and the writer
 of the current socket takes them out, all interleaved with sockets coming and going. A one-place
 wake channel (`token`) tells the writer that there is something to take.
 */
module LiveTransport {
  import opened Basics
  import opened Messages
  import opened AdapterModel
  import opened LatestQueue

  datatype Kind = HelloKind | ActivityKind | PositionKind | StatusKind | StopKind

  function KindOf(pub: MqttPub): Kind {
    match pub
    case HelloPub(_) => HelloKind
    case ActivityPub(_, _, _) => ActivityKind
    case PositionPub(_, _, _, _, _, _, _, _) => PositionKind
    case StatusPub(_, _, _, _) => StatusKind
    case StopPub(_, _, _, _) => StopKind
  }

  /** What the adapter hands over, with the instant of publication and when the frame expires. */
  datatype Frame = Frame(live: Live, publishedAt: Time, expires: Time)

  /** A publisher past its checks, or past its insertion and about to post the wake token. */
  datatype Publisher = Checked(frame: Frame) | Posting

  datatype Writer = Off | Waiting | Taking | Holding(frame: Frame) | Cleared(frame: Frame)

  /** Where the connection loop stands. */
  datatype Stage = Down | Dialed | Trusted | Running | Closing | Resetting

  datatype Sent = Sent(frame: Frame, at: Time)

  datatype Transport = Transport(
    queue: Latest<Kind, Frame>, token: bool, publishers: map<nat, Publisher>, writer: Writer, stage: Stage,
    socket: Option<nat>, connected: bool, authenticated: bool, nextSocket: nat, written: seq<Sent>)

  datatype Event =
    | Check(p: nat, live: Live, now: Time)
    | Insert(p: nat)
    | Post(p: nat)
    | Wake
    | Take(kind: Kind)
    | TakeNothing
    | Authorize(env: Env, adapter: State)
    | Write(at: Time, ok: bool)
    | StopWriter
    | Dial
    | DialFails
    | Accept
    | Reject
    | MarkUp
    | Close
    | ResetQueue
    | MarkDown

  function Start(): Transport {
    Transport(Empty(), false, map[], Off, Down, None, false, false, 0, [])
  }

  /** The client with this socket is connected. */
  predicate Up(s: Transport, socket: nat) {
    s.socket == Some(socket) && s.connected && s.authenticated
  }

  /** A frame lives for at most a second. */
  function Expiry(expiresAt: Time, now: Time): Time {
    if expiresAt == 0 || expiresAt > now + SECOND then now + SECOND else expiresAt
  }

  predicate Publishes(s: Transport, live: Live, now: Time) {
    Up(s, live.client) && now < Expiry(live.expiresAt, now)
  }

  /** The adapter still stands behind the frame, on the same client and connection. */
  predicate Backed(adapter: State, env: Env, live: Live) {
    adapter.link.client == Some(live.client) && adapter.link.connection == live.connection
        && Authorized(adapter, env, live.pub)
  }

  /** The last check before the bytes go out. */
  predicate Writable(s: Transport, f: Frame, now: Time) {
    Up(s, f.live.client) && now < f.expires
  }

  predicate AboutToPost(s: Transport, p: nat) {
    p in s.publishers && s.publishers[p].Posting?
  }

  ghost predicate Can(s: Transport, e: Event) {
    match e
    case Check(p, live, now) => p !in s.publishers
    case Insert(p) => p in s.publishers && s.publishers[p].Checked?
    case Post(p) => AboutToPost(s, p)
    case Wake => s.writer.Waiting? && s.token
    case Take(kind) => s.writer.Taking? && IsOldest(s.queue, kind)
    case TakeNothing => s.writer.Taking? && s.queue.pending == map[]
    case Authorize(_, _) => s.writer.Holding?
    case Write(_, _) => s.writer.Cleared?
    case StopWriter => s.writer.Waiting?
    case Dial => s.stage.Down?
    case DialFails => s.stage.Down?
    case Accept => s.stage.Dialed?
    case Reject => s.stage.Dialed?
    case MarkUp => s.stage.Trusted?
    case Close => s.stage.Running? && s.writer.Off?
    case ResetQueue => s.stage.Closing?
    case MarkDown => s.stage.Resetting?
  }

  ghost function After(s: Transport, e: Event): Transport
    requires Can(s, e)
  {
    match e
    case Check(p, live, now) =>
      if Publishes(s, live, now)
      then s.(publishers := s.publishers[p := Checked(Frame(live, now, Expiry(live.expiresAt, now)))])
      else s
    case Insert(p) =>
      var f := s.publishers[p].frame;
      s.(queue := Put(s.queue, KindOf(f.live.pub), f), publishers := s.publishers[p := Posting])
    case Post(p) => s.(token := true, publishers := s.publishers - {p})
    case Wake => s.(token := false, writer := Taking)
    case Take(kind) =>
      var rest := Drop(s.queue, {kind});
      s.(queue := rest, token := s.token || rest.pending != map[], writer := Holding(s.queue.pending[kind].item))
    case TakeNothing => s.(writer := Waiting)
    case Authorize(env, adapter) =>
      var f := s.writer.frame;
      s.(writer := if env.now < f.expires && Backed(adapter, env, f.live) then Cleared(f) else Waiting)
    case Write(at, ok) =>
      var f := s.writer.frame;
      if !Writable(s, f, at) then s.(writer := Waiting)
      else if !ok then s.(writer := Off)
      else s.(writer := Waiting, written := s.written + [Sent(f, at)])
    case StopWriter => s.(writer := Off)
    case Dial => s.(stage := Dialed, socket := Some(s.nextSocket), nextSocket := s.nextSocket + 1)
    case DialFails => s.(stage := Closing)
    case Accept => s.(stage := Trusted, authenticated := true)
    case Reject => s.(stage := Closing, socket := None)
    case MarkUp => s.(stage := Running, connected := true, writer := Waiting)
    case Close => s.(stage := Closing, socket := None)
    case ResetQueue => s.(stage := Resetting, queue := s.queue.(pending := map[]))
    case MarkDown => s.(stage := Down, connected := false, authenticated := false)
  }

  ghost predicate IsRun(ss: seq<Transport>, es: seq<Event>) {
    && |ss| == |es| + 1 && ss[0] == Start()
    && forall k | 0 <= k < |es| :: Can(ss[k], es[k]) && ss[k + 1] == After(ss[k], es[k])
  }

  // ---- sockets ----

  /** The connection loop's flags are what its stage says; a writer runs only while a socket is up. */
  ghost predicate Staged(s: Transport) {
    && (s.socket.Some? <==> s.stage.Dialed? || s.stage.Trusted? || s.stage.Running?)
    && (s.socket.Some? ==> s.socket.value < s.nextSocket)
    && (s.stage.Running? ==> s.connected && s.authenticated)
    && (s.stage.Down? || s.stage.Dialed? ==> !s.connected && !s.authenticated)
    && (s.stage.Trusted? ==> !s.connected && s.authenticated)
    && (!s.writer.Off? ==> s.stage.Running?)
  }

  lemma StepKeepsStaged(s: Transport, e: Event)
    requires Staged(s) && Can(s, e)
    ensures Staged(After(s, e))
  {
  }

  lemma {:induction false} RunIsStaged(ss: seq<Transport>, es: seq<Event>, j: nat)
    requires IsRun(ss, es) && j < |ss|
    ensures Staged(ss[j])
  {
    if j > 0 {
      RunIsStaged(ss, es, j - 1);
      StepKeepsStaged(ss[j - 1], es[j - 1]);
    }
  }

  // ---- no lost wakeup ----

  /** What is pending has a wake token, a publisher about to post one, or a writer about to take. */
  ghost predicate Awake(s: Transport) {
    s.queue.pending == map[] || s.token || s.writer.Taking? || exists p :: AboutToPost(s, p)
  }

  ghost predicate Queued(s: Transport) {
    Numbered(s.queue) && forall k | k in s.queue.pending :: KindOf(s.queue.pending[k].item.live.pub) == k
  }

  lemma StepKeepsAwake(s: Transport, e: Event)
    requires Awake(s) && Staged(s) && Can(s, e)
    ensures Awake(After(s, e))
  {
    var t := After(s, e);
    if !t.token && !t.writer.Taking? && t.queue.pending != map[] {
      if e.Insert? {
        assert AboutToPost(t, e.p);
      } else {
        var p :| AboutToPost(s, p);
        assert AboutToPost(t, p);
      }
    }
  }

  lemma StepKeepsQueued(s: Transport, e: Event)
    requires Queued(s) && Can(s, e)
    ensures Queued(After(s, e))
  {
    match e
    case Insert(p) => PutKeepsNumbered(s.queue, KindOf(s.publishers[p].frame.live.pub), s.publishers[p].frame);
    case Take(kind) => DropKeepsNumbered(s.queue, {kind});
    case _ =>
  }

  /** In every interleaving, a non-empty queue will be looked at. */
  lemma {:induction false} NoLostWakeup(ss: seq<Transport>, es: seq<Event>, j: nat)
    requires IsRun(ss, es) && j < |ss|
    ensures Awake(ss[j]) && Queued(ss[j])
  {
    if j > 0 {
      NoLostWakeup(ss, es, j - 1);
      RunIsStaged(ss, es, j - 1);
      StepKeepsAwake(ss[j - 1], es[j - 1]);
      StepKeepsQueued(ss[j - 1], es[j - 1]);
    }
  }

  /** With the writer on, something pending means that one of these steps can be taken now. */
  lemma QueueMakesProgress(ss: seq<Transport>, es: seq<Event>, j: nat) returns (e: Event)
    requires IsRun(ss, es) && j < |ss| && ss[j].queue.pending != map[] && !ss[j].writer.Off?
    ensures Can(ss[j], e)
    ensures e.Post? || e.Wake? || e.Take? || e.Authorize? || e.Write?
  {
    NoLostWakeup(ss, es, j);
    var s := ss[j];
    if s.writer.Holding? {
      e := Authorize(Env(0, false), Init());
    } else if s.writer.Cleared? {
      e := Write(0, false);
    } else if s.writer.Taking? {
      var k := OldestOf(s.queue, s.queue.pending.Keys);
      e := Take(k);
    } else if s.token {
      e := Wake;
    } else {
      var p :| AboutToPost(s, p);
      e := Post(p);
    }
  }

  // ---- no overtaking ----

  /** The frame pending for `kind` in state `i` is still that frame in state `j`. */
  ghost predicate StaysPending(ss: seq<Transport>, i: nat, j: nat, kind: Kind) {
    && i <= j < |ss| && kind in ss[i].queue.pending
    && forall m | i <= m <= j :: kind in ss[m].queue.pending && ss[m].queue.pending[kind] == ss[i].queue.pending[kind]
  }

  /** How many frames are taken from step `i` up to step `j`. */
  function Taken(es: seq<Event>, i: nat, j: nat): nat
    requires i <= j <= |es|
  {
    if i == j then 0 else Taken(es, i, j - 1) + (if es[j - 1].Take? then 1 else 0)
  }

  lemma StepAdvances(s: Transport, e: Event, kind: Kind)
    requires Queued(s) && Can(s, e) && kind in s.queue.pending && kind in After(s, e).queue.pending
    requires After(s, e).queue.pending[kind] == s.queue.pending[kind]
    ensures |Ahead(After(s, e).queue, kind)| + (if e.Take? then 1 else 0) <= |Ahead(s.queue, kind)|
  {
    match e
    case Insert(p) => InsertKeepsPlace(s.queue, s.publishers[p].frame, kind);
    case Take(k) => TakingOldestAdvances(s.queue, k, kind);
    case _ => OnlyThreeTouchTheQueue(s, e);
  }

  lemma OnlyThreeTouchTheQueue(s: Transport, e: Event)
    requires Can(s, e)
    ensures After(s, e).queue == s.queue || e.Insert? || e.Take? || e.ResetQueue?
  {
  }

  lemma InsertKeepsPlace(q: Latest<Kind, Frame>, f: Frame, waiting: Kind)
    requires Numbered(q) && waiting in q.pending && Put(q, KindOf(f.live.pub), f).pending[waiting] == q.pending[waiting]
    ensures |Ahead(Put(q, KindOf(f.live.pub), f), waiting)| <= |Ahead(q, waiting)|
  {
    PutNeverOvertakes(q, KindOf(f.live.pub), f, waiting);
    SubsetIsNoLarger(Ahead(Put(q, KindOf(f.live.pub), f), waiting), Ahead(q, waiting));
  }

  lemma {:induction false} TakesUseUpThoseAhead(ss: seq<Transport>, es: seq<Event>, i: nat, j: nat, kind: Kind)
    requires IsRun(ss, es) && StaysPending(ss, i, j, kind)
    ensures Taken(es, i, j) + |Ahead(ss[j].queue, kind)| <= |Ahead(ss[i].queue, kind)|
    decreases j
  {
    if i < j {
      assert StaysPending(ss, i, j - 1, kind);
      TakesUseUpThoseAhead(ss, es, i, j - 1, kind);
      NoLostWakeup(ss, es, j - 1);
      assert ss[j] == After(ss[j - 1], es[j - 1]);
      StepAdvances(ss[j - 1], es[j - 1], kind);
    }
  }

  /** While a frame stays pending and is not replaced, at most four others are taken. */
  lemma AtMostFourGoFirst(ss: seq<Transport>, es: seq<Event>, i: nat, j: nat, kind: Kind)
    requires IsRun(ss, es) && StaysPending(ss, i, j, kind)
    ensures Taken(es, i, j) <= 4
  {
    TakesUseUpThoseAhead(ss, es, i, j, kind);
    var kinds := {HelloKind, ActivityKind, PositionKind, StatusKind, StopKind};
    assert |kinds| == 5;
    forall k | k in ss[i].queue.pending
      ensures k in kinds
    {
      match k case HelloKind => case ActivityKind => case PositionKind => case StatusKind => case StopKind =>
    }
    AheadIsBounded(ss[i].queue, kind, kinds);
  }

  // ---- the socket boundary ----

  /** A socket that is gone does not come back. */
  lemma GoneStep(s: Transport, e: Event, socket: nat)
    requires Can(s, e) && s.socket != Some(socket) && socket < s.nextSocket
    ensures After(s, e).socket != Some(socket) && socket < After(s, e).nextSocket
  {
  }

  lemma {:induction false} GoneStaysGone(ss: seq<Transport>, es: seq<Event>, i: nat, j: nat, socket: nat)
    requires IsRun(ss, es) && i <= j < |ss| && ss[i].socket != Some(socket) && socket < ss[i].nextSocket
    ensures ss[j].socket != Some(socket) && socket < ss[j].nextSocket
    decreases j
  {
    if i < j {
      GoneStaysGone(ss, es, i, j - 1, socket);
      GoneStep(ss[j - 1], es[j - 1], socket);
    }
  }

  lemma UpUntilGone(s: Transport, e: Event, socket: nat)
    requires Staged(s) && Can(s, e) && Up(s, socket)
    ensures Up(After(s, e), socket) || (After(s, e).socket != Some(socket) && socket < After(s, e).nextSocket)
  {
  }

  /** A socket that is up at both ends was up all the time in between. */
  lemma {:induction false} UpThroughout(ss: seq<Transport>, es: seq<Event>, i: nat, m: nat, j: nat, socket: nat)
    requires IsRun(ss, es) && i <= m <= j < |ss| && Up(ss[i], socket) && Up(ss[j], socket)
    ensures Up(ss[m], socket)
    decreases m
  {
    if i < m {
      UpThroughout(ss, es, i, m - 1, j, socket);
      RunIsStaged(ss, es, m - 1);
      UpUntilGone(ss[m - 1], es[m - 1], socket);
      if ss[m].socket != Some(socket) {
        GoneStaysGone(ss, es, m, j, socket);
      }
    }
  }

  /** This step checked the frame for publication. */
  predicate ChecksFrame(s: Transport, e: Event, f: Frame) {
    e.Check? && Publishes(s, e.live, e.now) && f == Frame(e.live, e.now, Expiry(e.live.expiresAt, e.now))
  }

  predicate ClearsFrame(s: Transport, e: Event, f: Frame) {
    e.Authorize? && s.writer == Holding(f) && e.env.now < f.expires && Backed(e.adapter, e.env, f.live)
  }

  lemma CheckedOrigin(s: Transport, e: Event, p: nat)
    requires Can(s, e) && p in After(s, e).publishers && After(s, e).publishers[p].Checked?
    ensures
      || (p in s.publishers && s.publishers[p] == After(s, e).publishers[p])
      || ChecksFrame(s, e, After(s, e).publishers[p].frame)
  {
  }

  lemma PendingOrigin(s: Transport, e: Event, kind: Kind)
    requires Can(s, e) && kind in After(s, e).queue.pending
    ensures
      || (kind in s.queue.pending && s.queue.pending[kind] == After(s, e).queue.pending[kind])
      || (e.Insert? && s.publishers[e.p].frame == After(s, e).queue.pending[kind].item)
  {
  }

  lemma WriterOrigin(s: Transport, e: Event)
    requires Can(s, e)
    ensures After(s, e).writer.Holding? ==>
              s.writer == After(s, e).writer || (e.Take? && s.queue.pending[e.kind].item == After(s, e).writer.frame)
    ensures After(s, e).writer.Cleared? ==>
            s.writer == After(s, e).writer || ClearsFrame(s, e, After(s, e).writer.frame)
  {
  }

  lemma {:induction false} TraceChecked(ss: seq<Transport>, es: seq<Event>, j: nat, p: nat) returns (i: nat)
    requires IsRun(ss, es) && j < |ss| && p in ss[j].publishers && ss[j].publishers[p].Checked?
    ensures i < j && ChecksFrame(ss[i], es[i], ss[j].publishers[p].frame)
    decreases j
  {
    i := j - 1;
    CheckedOrigin(ss[i], es[i], p);
    if !ChecksFrame(ss[i], es[i], ss[j].publishers[p].frame) {
      i := TraceChecked(ss, es, i, p);
    }
  }

  lemma {:induction false} TracePending(ss: seq<Transport>, es: seq<Event>, j: nat, kind: Kind) returns (i: nat)
    requires IsRun(ss, es) && j < |ss| && kind in ss[j].queue.pending
    ensures i < j && ChecksFrame(ss[i], es[i], ss[j].queue.pending[kind].item)
    decreases j
  {
    i := j - 1;
    PendingOrigin(ss[i], es[i], kind);
    if kind in ss[i].queue.pending && ss[i].queue.pending[kind] == ss[j].queue.pending[kind] {
      i := TracePending(ss, es, i, kind);
    } else {
      i := TraceChecked(ss, es, i, es[i].p);
    }
  }

  lemma {:induction false} TraceHolding(ss: seq<Transport>, es: seq<Event>, j: nat) returns (i: nat)
    requires IsRun(ss, es) && j < |ss| && ss[j].writer.Holding?
    ensures i < j && ChecksFrame(ss[i], es[i], ss[j].writer.frame)
    decreases j
  {
    i := j - 1;
    WriterOrigin(ss[i], es[i]);
    if ss[i].writer == ss[j].writer {
      i := TraceHolding(ss, es, i);
    } else {
      i := TracePending(ss, es, i, es[i].kind);
    }
  }

  lemma {:induction false} TraceCleared(ss: seq<Transport>, es: seq<Event>, j: nat) returns (i: nat)
    requires IsRun(ss, es) && j < |ss| && ss[j].writer.Cleared?
    ensures i < j && ClearsFrame(ss[i], es[i], ss[j].writer.frame)
    decreases j
  {
    i := j - 1;
    WriterOrigin(ss[i], es[i]);
    if ss[i].writer == ss[j].writer {
      i := TraceCleared(ss, es, i);
    }
  }

  /** This step writes the frame to the socket. */
  predicate WritesFrame(s: Transport, t: Transport, f: Frame, at: Time) {
    t.written == s.written + [Sent(f, at)]
  }

  /**
   Every frame written was published for this very socket, which was up then and ever since, less
   than a second before the last expiry check; and after publication the adapter authorized it.
   */
  lemma WrittenFramesAreCurrent(ss: seq<Transport>, es: seq<Event>, k: nat, f: Frame, at: Time)
    returns (published: nat, authorized: nat)
    requires IsRun(ss, es) && k < |es| && WritesFrame(ss[k], ss[k + 1], f, at)
    ensures published < authorized < k
    ensures ChecksFrame(ss[published], es[published], f) && ClearsFrame(ss[authorized], es[authorized], f)
    ensures forall m | published <= m <= k :: Up(ss[m], f.live.client)
    ensures at < es[published].now + SECOND && at < f.expires
  {
    assert ss[k].written != ss[k + 1].written;
    assert es[k].Write?;
    assert ss[k + 1].written[|ss[k].written|] == Sent(f, at);
    authorized := TraceCleared(ss, es, k);
    published := TraceHolding(ss, es, authorized);
    forall m | published <= m <= k
      ensures Up(ss[m], f.live.client)
    {
      UpThroughout(ss, es, published, m, k, f.live.client);
    }
  }
}
