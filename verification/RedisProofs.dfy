/**
 What reaches the dashboard through the bounded, drop-oldest Redis queue, over every run: leases
 that never outlive the held one, and peer positions protected against replay.
 */
module RedisProofs {
  import opened Basics
  import opened Messages
  import opened AdapterModel
  import opened AdapterRuns
  import opened ConsentProofs

  // ---- the queue ----

  /** Publications are numbered in the order they were queued, and move through the queue in that order. */
  ghost predicate QueueInv(s: State) {
    && s.redis.next == |s.log.queued|
    && (forall k | 0 <= k < |s.log.queued| :: s.log.queued[k].serial == k)
    && (forall a | 0 <= a < |s.redis.queue| ::
          s.redis.queue[a].serial < |s.log.queued| && s.log.queued[s.redis.queue[a].serial] == s.redis.queue[a])
    && (forall a, b | 0 <= a < b < |s.redis.queue| :: s.redis.queue[a].serial < s.redis.queue[b].serial)
    && (s.redis.inflight.Some? ==>
          && s.redis.inflight.value.serial < |s.log.queued|
          && s.log.queued[s.redis.inflight.value.serial] == s.redis.inflight.value
          && forall a | 0 <= a < |s.redis.queue| :: s.redis.inflight.value.serial < s.redis.queue[a].serial)
  }

  /** Everything published so far was queued before whatever is still queued or in flight. */
  ghost predicate PublishedFirst(s: State) {
    forall a | 0 <= a < |s.log.published| ::
      var n := s.log.published[a].serial;
      && n < |s.log.queued|
      && (forall b | 0 <= b < |s.redis.queue| :: n < s.redis.queue[b].serial)
      && (s.redis.inflight.Some? ==> n < s.redis.inflight.value.serial)
  }

  /** The log of queued publications grows, by anything but peer positions; the worker does not move. */
  ghost predicate Grows(s: State, t: State) {
    && t.redis.inflight == s.redis.inflight && t.log.published == s.log.published
    && |s.log.queued| <= |t.log.queued| && (forall k | 0 <= k < |s.log.queued| :: t.log.queued[k] == s.log.queued[k])
    && (forall k | |s.log.queued| <= k < |t.log.queued| :: !t.log.queued[k].msg.PeerMsg?)
    && (QueueInv(s) ==> QueueInv(t) && (PublishedFirst(s) ==> PublishedFirst(t)))
  }

  predicate SameEgress(s: State, t: State) {
    t.redis == s.redis && t.log.queued == s.log.queued && t.log.published == s.log.published
  }

  lemma QueueKeepsInv(s: State, env: Env, msg: RedisMsg, maxAge: int)
    requires QueueInv(s)
    ensures var t := QueueRedis(s, env, msg, maxAge); QueueInv(t) && (PublishedFirst(s) ==> PublishedFirst(t))
  {
  }

  lemma QueueGrows(s: State, env: Env, msg: RedisMsg, maxAge: int)
    requires !msg.PeerMsg?
    ensures Grows(s, QueueRedis(s, env, msg, maxAge))
  {
    if QueueInv(s) {
      QueueKeepsInv(s, env, msg, maxAge);
    }
  }

  lemma GrowsTrans(s: State, m: State, t: State)
    requires Grows(s, m) && Grows(m, t)
    ensures Grows(s, t)
  {
  }

  lemma SameGrows(s: State, t: State)
    requires SameEgress(s, t)
    ensures Grows(s, t)
  {
  }

  lemma IssueGrows(s: State, env: Env, purpose: Purpose, query: Option<PreparedQuery>, id: Option<Id>)
    ensures Grows(s, IssueProbe(s, env, purpose, query, id))
  {
    var r := IssueProbe(s, env, purpose, query, id);
    if IssuesProbe(s, env, id) {
      QueueGrows(s, env, ProbeMsg(id.value), ATTEMPT_LIFETIME);
      SameGrows(QueueRedis(s, env, ProbeMsg(id.value), ATTEMPT_LIFETIME), r);
      GrowsTrans(s, QueueRedis(s, env, ProbeMsg(id.value), ATTEMPT_LIFETIME), r);
    } else {
      SameGrows(s, r);
    }
  }

  lemma IssueFromGrows(s: State, m: State, env: Env, purpose: Purpose, query: Option<PreparedQuery>, id: Option<Id>)
    requires SameEgress(s, m)
    ensures Grows(s, IssueProbe(m, env, purpose, query, id))
  {
    SameGrows(s, m);
    IssueGrows(m, env, purpose, query, id);
    GrowsTrans(s, m, IssueProbe(m, env, purpose, query, id));
  }

  lemma RefreshGrows(s: State, env: Env, blocked: bool, hello: Option<Id>, first: Option<Id>, second: Option<Id>)
    ensures Grows(s, OnRefresh(s, env, blocked, hello, first, second))
  {
    var s1 := s.(consent := s.consent.(blocked := blocked, settingsReady := true));
    var s2 := if !s.consent.settingsReady then AnnounceReady(s1, env, hello, first) else s1;
    assert Grows(s, s2) by {
      IssueFromGrows(s, PublishHello(s1, env, hello), env, Reconcile, None, first);
      SameGrows(s, s1);
    }
    if blocked || s.consent.blocked {
      InhibitBySettingsGrows(s2, env, second);
      GrowsTrans(s, s2, InhibitBySettings(s2, env, second));
    }
  }

  lemma InhibitBySettingsGrows(s: State, env: Env, id: Option<Id>)
    ensures Grows(s, InhibitBySettings(s, env, id))
  {
    StartOverIsQuiet(s);
    RequestGrows(s, StartOver(s), env, id);
  }

  lemma StartOverIsQuiet(s: State)
    ensures SameEgress(s, StartOver(s))
  {
  }

  lemma RequestGrows(s: State, m: State, env: Env, id: Option<Id>)
    requires SameEgress(s, m)
    ensures Grows(s, RequestReconciliation(m, env, id))
  {
    IssueFromGrows(s, m, env, Reconcile, None, id);
  }

  lemma ConnectGrows(s: State, env: Env, client: nat, attempt: nat, connection: Option<Id>, hello: Option<Id>,
      id: Option<Id>)
    ensures Grows(s, OnConnectFinish(s, env, client, attempt, connection, hello, id))
  {
    var s1 := s.(link := s.link.(connecting := false));
    SameGrows(s, s1);
    SameGrows(s, s);
    if connection.Some? {
      IssueFromGrows(s, PublishHello(ResetConnection(s1, Some(client), connection.value), env, hello), env, Reconcile,
          None, id);
    }
  }

  lemma SnapshotGrows(s: State, env: Env, st: LocalStop, evict: Id, id: Option<Id>)
    ensures Grows(s, OnSnapshot(s, env, st, evict, id))
  {
    var r := OnSnapshot(s, env, st, evict, id);
    if TakesSnapshot(s, env, st) || (st.challenge in s.journal.used && s.journal.used[st.challenge] == st) {
      SameGrows(s, r);
    } else {
      var b := if VetoedBySnapshot(s, env, st) then Inhibit(s) else s;
      IssueFromGrows(s, b, env, Reconcile, None, id);
      IssueFromGrows(s, ConsumeProbe(b, st, evict), env, Reconcile, None, id);
    }
  }

  lemma ReplyGrows(s: State, env: Env, c: Control, id: Option<Id>)
    requires c.stopResult.Some?
    ensures Grows(s, OnStopStatus(s, env, c, id))
  {
    var r := OnStopStatus(s, env, c, id);
    if !ForwardsReply(s, env, c) {
      SameGrows(s, r);
    } else {
      var m := MarkConsumed(s, c.challenge);
      var s1 := ForwardResult(m, env, c, s.journal.attempts[c.challenge]);
      ForwardGrows(s, m, env, c, s.journal.attempts[c.challenge]);
      if WantsConfirmation(s, env, c) {
        var s2 := IssueProbe(s1, env, ApplyConfirmation, s1.journal.query, id);
        IssueGrows(s1, env, ApplyConfirmation, s1.journal.query, id);
        GrowsTrans(s, s1, s2);
        SameGrows(s2, r);
        GrowsTrans(s, s2, r);
      } else {
        SameGrows(s1, r);
        GrowsTrans(s, s1, r);
      }
    }
  }

  lemma QueueFromGrows(s: State, m: State, env: Env, msg: RedisMsg, maxAge: int)
    requires SameEgress(s, m) && !msg.PeerMsg?
    ensures Grows(s, QueueRedis(m, env, msg, maxAge))
  {
    SameGrows(s, m);
    QueueGrows(m, env, msg, maxAge);
    GrowsTrans(s, m, QueueRedis(m, env, msg, maxAge));
  }

  lemma ForwardGrows(s: State, m: State, env: Env, c: Control, a: Attempt)
    requires c.stopResult.Some? && SameEgress(s, m)
    ensures Grows(s, ForwardResult(m, env, c, a))
  {
    var r := ForwardResult(m, env, c, a);
    QueueFromGrows(s, m, env, r.log.queued[|m.log.queued|].msg, a.deadline - env.now);
  }

  lemma MaybeOfferGrows(s: State, env: Env, c: Control)
    ensures Grows(s, MaybeOffer(s, env, c))
  {
    if Offers(s, env, c) {
      var p := s.journal.permit.value;
      QueueFromGrows(s, s.(journal := s.journal.(permit := None)), env,
                     ResultMsg(p.op, p.revision, p.challenge, s.link.connection, Offer, Some(c.consent), None),
                     p.deadline - env.now);
    } else {
      SameGrows(s, s);
    }
  }

  lemma OfferGrows(s: State, env: Env, c: Control)
    ensures Grows(s, QueueRedis(MaybeOffer(s, env, c), env, ControlMsg(c), ATTEMPT_LIFETIME))
  {
    var m := MaybeOffer(s, env, c);
    MaybeOfferGrows(s, env, c);
    QueueGrows(m, env, ControlMsg(c), ATTEMPT_LIFETIME);
    GrowsTrans(s, m, QueueRedis(m, env, ControlMsg(c), ATTEMPT_LIFETIME));
  }

  lemma ClearGrows(s: State, env: Env, c: Control)
    ensures Grows(s, OnClear(s, env, c))
  {
    SameGrows(s, s);
    QueueFromGrows(s, s.(consent := s.consent.(challenges := map[])), env, ControlMsg(c), 0);
    QueueFromGrows(s, DropActivity(ClearGrant(s.(consent := s.consent.(lastCleared := Some(c))))), env, ControlMsg(c),
        0);
  }

  lemma ControlGrows(s: State, env: Env, c: Control, id: Option<Id>)
    requires ValidControl(c)
    ensures Grows(s, OnControl(s, env, c, id))
  {
    SameGrows(s, s);
    match c.action
    case Status =>
      if c.stopResult.Some? {
        ReplyGrows(s, env, c, id);
      } else {
        OfferGrows(s, env, c);
      }
    case Clear => ClearGrows(s, env, c);
    case _ =>
      if AcceptsGrant(s, env, c) {
        GrantGrows(s, env, c);
      }
  }

  lemma GrantGrows(s: State, env: Env, c: Control)
    requires AcceptsGrant(s, env, c) && c.cadenceMs.Some?
    ensures Grows(s, InstallGrant(s, env, c))
  {
    var r := InstallGrant(s, env, c);
    var age := LEASE_DURATION - (env.now - s.consent.challenges[c.challenge]);
    QueueGrows(s, env, ControlMsg(c), age);
    SameGrows(QueueRedis(s, env, ControlMsg(c), age), r);
    GrowsTrans(s, QueueRedis(s, env, ControlMsg(c), age), r);
  }

  lemma PeerStatusGrows(s: State, env: Env, p: PeerStatus)
    ensures Grows(s, OnPeerStatus(s, env, p))
  {
    var r := OnPeerStatus(s, env, p);
    if AcceptsPeerStatus(s, env, p) {
      QueueGrows(s, env, PeerStatusMsg(p), SECOND);
      SameGrows(QueueRedis(s, env, PeerStatusMsg(p), SECOND), r);
      GrowsTrans(s, QueueRedis(s, env, PeerStatusMsg(p), SECOND), r);
    } else {
      SameGrows(s, r);
    }
  }

  // ---- what one step does to the egress and to the replay marks ----

  predicate PeerAt(s: State, i: Input) {
    i.event.PeerIn? && AcceptsPeer(s, i.env, i.event.position)
  }

  predicate PeerStatusAt(s: State, i: Input) {
    i.event.PeerStatusIn? && AcceptsPeerStatus(s, i.env, i.event.status)
  }

  /** An accepted position is queued under the next number. */
  ghost predicate PeerQueued(s: State, t: State, env: Env, p: PeerPosition) {
    && t.log.queued == s.log.queued + [RedisPub(s.redis.next, PeerMsg(p), env.now, env.now + SECOND)]
    && t.redis.inflight == s.redis.inflight && t.log.published == s.log.published
    && (QueueInv(s) ==> QueueInv(t) && (PublishedFirst(s) ==> PublishedFirst(t)))
  }

  ghost predicate EgressEffect(s: State, i: Input, t: State) {
    match i.event
    case PeerIn(p) => if AcceptsPeer(s, i.env, p) then PeerQueued(s, t, i.env, p) else SameEgress(s, t)
    case RedisTake => t.redis == OnRedisTake(s).redis && t.log == s.log
    case RedisDeliver =>
      && t.redis == s.redis.(inflight := None) && t.log.queued == s.log.queued
      && (|| t.log.published == s.log.published
          || (&& s.redis.inflight.Some? && FinalRedis(s, i.env, s.redis.inflight.value).Some?
              && t.log.published == s.log.published + [Published(FinalRedis(s, i.env, s.redis.inflight.value).value,
                                                                 s.redis.inflight.value.serial)]))
    case _ => Grows(s, t)
  }

  predicate PeersEffect(s: State, i: Input, t: State) {
    match i.event
    case PeerIn(p) => t.peers == OnPeer(s, i.env, p).peers
    case PeerStatusIn(p) => t.peers == OnPeerStatus(s, i.env, p).peers
    case ControlIn(c, _) =>
      if AcceptsGrant(s, i.env, c) then c.session.Some? && t.peers == SetReplayScope(s.peers, c) else t.peers == s.peers
    case _ => t.peers == s.peers
  }

  lemma PeerQueues(s: State, env: Env, p: PeerPosition)
    requires AcceptsPeer(s, env, p)
    ensures PeerQueued(s, OnPeer(s, env, p), env, p)
  {
    if QueueInv(s) {
      QueueKeepsInv(s, env, PeerMsg(p), SECOND);
    }
  }

  lemma QuietEgress(s: State, i: Input)
    requires Enabled(s, i) && !i.event.Refresh? && !i.event.ConnectFinish? && !i.event.SnapshotIn?
             && !i.event.ControlIn?
    requires !i.event.RecoveryDone? && !i.event.PeerIn? && !i.event.PeerStatusIn? && !i.event.RedisTake?
             && !i.event.RedisDeliver?
    ensures SameEgress(s, Next(s, i))
  {
  }

  lemma NextEgress(s: State, i: Input)
    requires Enabled(s, i)
    ensures EgressEffect(s, i, Next(s, i))
  {
    match i.event
    case Refresh(blocked, hello, first, second) => RefreshGrows(s, i.env, blocked, hello, first, second);
    case ConnectFinish(client, attempt, connection, hello, id) => ConnectGrows(s, i.env, client, attempt, connection,
        hello, id);
    case SnapshotIn(st, evict, id) => SnapshotGrows(s, i.env, st, evict, id);
    case ControlIn(c, id) => ControlGrows(s, i.env, c, id);
    case RecoveryDone(id) => IssueFromGrows(s, s.(phase := Serving), i.env, Reconcile, None, id);
    case PeerStatusIn(p) => PeerStatusGrows(s, i.env, p);
    case PeerIn(p) =>
      if AcceptsPeer(s, i.env, p) {
        PeerQueues(s, i.env, p);
      }
    case RedisTake =>
    case RedisDeliver =>
    case _ =>
      QuietEgress(s, i);
      SameGrows(s, Next(s, i));
  }

  lemma ControlPeers(s: State, env: Env, c: Control, id: Option<Id>)
    requires ValidControl(c)
    ensures var t := OnControl(s, env, c, id);
            if AcceptsGrant(s, env, c) then c.session.Some? && t.peers == SetReplayScope(s.peers, c)
                else t.peers == s.peers
  {
  }

  lemma NextPeers(s: State, i: Input)
    requires Enabled(s, i)
    ensures PeersEffect(s, i, Next(s, i))
  {
    if i.event.ControlIn? {
      ControlPeers(s, i.env, i.event.control, i.event.probe);
    }
  }

  // ---- invariants of every run ----

  lemma TakeKeepsQueue(s: State, t: State)
    requires QueueInv(s) && PublishedFirst(s) && t.redis == OnRedisTake(s).redis && t.log == s.log
    ensures QueueInv(t) && PublishedFirst(t)
  {
  }

  lemma EgressKeepsQueue(s: State, i: Input, t: State)
    requires QueueInv(s) && PublishedFirst(s) && EgressEffect(s, i, t)
    ensures QueueInv(t) && PublishedFirst(t)
  {
    if i.event.RedisTake? {
      TakeKeepsQueue(s, t);
    }
  }

  lemma {:induction false} RunKeepsQueue(ss: seq<State>, es: seq<Input>, j: nat)
    requires IsRun(ss, es) && j < |ss|
    ensures QueueInv(ss[j]) && PublishedFirst(ss[j])
  {
    if j > 0 {
      RunKeepsQueue(ss, es, j - 1);
      assert StepAt(ss, es, j - 1);
      NextEgress(ss[j - 1], es[j - 1]);
      assert EgressAt(ss, es, j - 1) && QueueAt(ss, j - 1);
      EgressKeepsQueue(ss[j - 1], es[j - 1], ss[j]);
    }
  }

  ghost predicate EgressTrace(ss: seq<State>, es: seq<Input>) {
    && |ss| == |es| + 1 && ss[0].log.queued == []
    && (forall k: nat | k < |ss| :: QueueAt(ss, k))
    && (forall k: nat | k < |es| :: EgressAt(ss, es, k))
  }

  ghost predicate QueueAt(ss: seq<State>, k: nat)
    requires k < |ss|
  {
    QueueInv(ss[k]) && PublishedFirst(ss[k])
  }

  ghost predicate EgressAt(ss: seq<State>, es: seq<Input>, k: nat)
    requires |ss| == |es| + 1 && k < |es|
  {
    EgressEffect(ss[k], es[k], ss[k + 1])
  }

  ghost predicate PeersTrace(ss: seq<State>, es: seq<Input>) {
    && |ss| == |es| + 1
    && (forall k: nat | k < |es| :: PeersAt(ss, es, k))
    && (forall k: nat | k < |ss| :: ScopeAt(ss, k))
  }

  ghost predicate PeersAt(ss: seq<State>, es: seq<Input>, k: nat)
    requires |ss| == |es| + 1 && k < |es|
  {
    PeersEffect(ss[k], es[k], ss[k + 1])
  }

  ghost predicate ScopeAt(ss: seq<State>, k: nat)
    requires k < |ss|
  {
    ScopeInv(ss[k])
  }

  lemma RunIsEgressTrace(ss: seq<State>, es: seq<Input>)
    requires IsRun(ss, es)
    ensures EgressTrace(ss, es) && PeersTrace(ss, es)
  {
    forall k: nat | k < |ss|
      ensures QueueAt(ss, k) && ScopeAt(ss, k)
    {
      RunKeepsQueue(ss, es, k);
      RunKeepsScope(ss, es, k);
    }
    forall k: nat | k < |es|
      ensures EgressAt(ss, es, k) && PeersAt(ss, es, k)
    {
      assert StepAt(ss, es, k);
      NextEgress(ss[k], es[k]);
      NextPeers(ss[k], es[k]);
    }
  }

  // ---- replay marks ----

  /** `p` stays listed in every grant accepted from step `i` up to step `j`, all of session `session`. */
  ghost predicate StaysListed(ss: seq<State>, es: seq<Input>, i: nat, j: nat, p: Id, session: Id)
    requires |ss| == |es| + 1
  {
    forall m | i <= m < j && m < |es| && GrantsAt(ss[m], es[m]) ::
      p in es[m].event.control.peers && es[m].event.control.session == Some(session)
  }

  /** The mark for `v`'s peer has reached `v`: a later epoch, or the same stream at least as far. */
  predicate Reached(s: State, v: PeerPosition) {
    && v.peer in s.peers.streams && s.peers.scope == v.session
    && var m := s.peers.streams[v.peer];
       m.epoch > v.peerEpoch ||
       (&& m.epoch == v.peerEpoch && m.stream == v.peerStream
        && ((m.sequence == v.sequence && m.captured == v.captured) ||
            (m.sequence > v.sequence && m.captured > v.captured)))
  }

  /** The stream of `p` at epoch `e` is closed, or a later epoch has begun. */
  predicate ClosedPast(s: State, session: Id, p: Id, e: int) {
    && p in s.peers.streams && s.peers.scope == session
    && (s.peers.streams[p].epoch > e || (s.peers.streams[p].epoch == e && s.peers.streams[p].closed))
  }

  /** `v` comes after `u`: a later epoch, or a later sample of the same stream. */
  predicate LaterThan(v: PeerPosition, u: PeerPosition) {
    v.peerEpoch > u.peerEpoch ||
    (v.peerEpoch == u.peerEpoch && v.peerStream == u.peerStream && v.sequence > u.sequence && v.captured > u.captured)
  }

  predicate SameSample(v: PeerPosition, u: PeerPosition) {
    v.peerEpoch == u.peerEpoch && v.peerStream == u.peerStream && v.sequence == u.sequence && v.captured == u.captured
  }

  lemma ReachedStep(s: State, i: Input, t: State, v: PeerPosition)
    requires PeersEffect(s, i, t) && Reached(s, v)
    requires GrantsAt(s, i) ==> v.peer in i.event.control.peers && i.event.control.session == Some(v.session)
    ensures Reached(t, v)
  {
  }

  lemma {:induction false} ReachedStays(ss: seq<State>, es: seq<Input>, i: nat, j: nat, v: PeerPosition)
    requires PeersTrace(ss, es) && i <= j < |ss| && Reached(ss[i], v) && StaysListed(ss, es, i, j, v.peer, v.session)
    ensures Reached(ss[j], v)
    decreases j
  {
    if i < j {
      ReachedStays(ss, es, i, j - 1, v);
      assert PeersAt(ss, es, j - 1);
      ReachedStep(ss[j - 1], es[j - 1], ss[j], v);
    }
  }

  lemma ClosedStep(s: State, i: Input, t: State, session: Id, p: Id, e: int)
    requires PeersEffect(s, i, t) && ClosedPast(s, session, p, e)
    requires GrantsAt(s, i) ==> p in i.event.control.peers && i.event.control.session == Some(session)
    ensures ClosedPast(t, session, p, e)
  {
  }

  lemma {:induction false} ClosedStays(ss: seq<State>, es: seq<Input>, i: nat, j: nat, session: Id, p: Id, e: int)
    requires PeersTrace(ss, es) && i <= j < |ss| && ClosedPast(ss[i], session, p, e)
             && StaysListed(ss, es, i, j, p, session)
    ensures ClosedPast(ss[j], session, p, e)
    decreases j
  {
    if i < j {
      ClosedStays(ss, es, i, j - 1, session, p, e);
      assert PeersAt(ss, es, j - 1);
      ClosedStep(ss[j - 1], es[j - 1], ss[j], session, p, e);
    }
  }

  /** While a grant is held, the replay marks belong to its session. */
  predicate ScopeInv(s: State) {
    s.consent.grant.Some? ==> s.consent.grant.value.session == Some(s.peers.scope)
  }

  lemma ScopeStep(s: State, i: Input, t: State)
    requires ScopeInv(s) && WellFormed(i.event) && Effect(s, i, t) && PeersEffect(s, i, t)
    ensures ScopeInv(t)
  {
    if t.consent.grant.Some? {
      GrantOrigin(s, i, t);
    }
  }

  lemma {:induction false} RunKeepsScope(ss: seq<State>, es: seq<Input>, j: nat)
    requires IsRun(ss, es) && j < |ss|
    ensures ScopeInv(ss[j])
  {
    if j > 0 {
      RunKeepsScope(ss, es, j - 1);
      assert StepAt(ss, es, j - 1);
      NextEffect(ss[j - 1], es[j - 1]);
      NextPeers(ss[j - 1], es[j - 1]);
      ScopeStep(ss[j - 1], es[j - 1], ss[j]);
    }
  }

  lemma AcceptedIsReached(s: State, i: Input, t: State)
    requires PeersEffect(s, i, t) && PeerAt(s, i) && ScopeInv(s)
    ensures Reached(t, i.event.position)
  {
  }

  lemma AcceptedIsLater(s: State, i: Input, v: PeerPosition)
    requires PeerAt(s, i) && Reached(s, v) && i.event.position.peer == v.peer
    ensures LaterThan(i.event.position, v)
  {
  }

  // ---- from publication back to acceptance ----

  /** This step publishes the peer position `v`, queued under number `n`. */
  predicate PublishesPeer(s: State, t: State, v: PeerPosition, n: nat) {
    |t.log.published| == |s.log.published| + 1 && t.log.published[|s.log.published|] == Published(PeerMsg(v), n)
  }

  lemma PublishStep(s: State, i: Input, t: State, v: PeerPosition, n: nat)
    requires EgressEffect(s, i, t) && QueueInv(s) && PublishesPeer(s, t, v, n)
    ensures n < |s.log.queued| && s.log.queued[n].msg.PeerMsg? && s.redis.inflight.Some?
            && s.redis.inflight.value.serial == n
    ensures s.log.queued[n].msg.position.(validFor := v.validFor) == v
    ensures v.peer in s.peers.streams
    ensures s.peers.streams[v.peer] == PeerStream(v.peerStream, v.peerEpoch, v.sequence, v.captured, false)
    ensures s.consent.grant.Some? && s.consent.grant.value.session == Some(v.session)
  {
  }

  lemma QueuedOrigin(s: State, i: Input, t: State, n: nat)
    requires EgressEffect(s, i, t) && QueueInv(s) && n < |t.log.queued| && t.log.queued[n].msg.PeerMsg?
    ensures
      || (n < |s.log.queued| && s.log.queued[n] == t.log.queued[n])
      || (PeerAt(s, i) && n == |s.log.queued| && t.log.queued[n].msg.position == i.event.position)
  {
  }

  /** A queued peer position was accepted at the step that queued it. */
  lemma {:induction false} TraceAcceptance(ss: seq<State>, es: seq<Input>, j: nat, n: nat) returns (a: nat)
    requires EgressTrace(ss, es) && j < |ss| && n < |ss[j].log.queued| && ss[j].log.queued[n].msg.PeerMsg?
    ensures a < j && PeerAt(ss[a], es[a]) && |ss[a].log.queued| == n
    ensures es[a].event.position == ss[j].log.queued[n].msg.position
    decreases j
  {
    assert EgressAt(ss, es, j - 1) && QueueAt(ss, j - 1);
    QueuedOrigin(ss[j - 1], es[j - 1], ss[j], n);
    if n < |ss[j - 1].log.queued| {
      a := TraceAcceptance(ss, es, j - 1, n);
    } else {
      a := j - 1;
    }
  }

  lemma QueuedStep(s: State, i: Input, t: State)
    requires EgressEffect(s, i, t)
    ensures |s.log.queued| <= |t.log.queued|
    ensures |s.log.published| <= |t.log.published|
  {
  }

  lemma {:induction false} QueuedGrow(ss: seq<State>, es: seq<Input>, i: nat, j: nat)
    requires EgressTrace(ss, es) && i <= j < |ss|
    ensures |ss[i].log.queued| <= |ss[j].log.queued|
    decreases j
  {
    if i < j {
      QueuedGrow(ss, es, i, j - 1);
      assert EgressAt(ss, es, j - 1);
      QueuedStep(ss[j - 1], es[j - 1], ss[j]);
    }
  }

  lemma PublishedStep(s: State, i: Input, t: State, k: nat)
    requires EgressEffect(s, i, t) && k < |s.log.published|
    ensures k < |t.log.published| && t.log.published[k] == s.log.published[k]
  {
  }

  lemma {:induction false} PublishedStays(ss: seq<State>, es: seq<Input>, i: nat, j: nat, k: nat)
    requires EgressTrace(ss, es) && i <= j < |ss| && k < |ss[i].log.published|
    ensures k < |ss[j].log.published| && ss[j].log.published[k] == ss[i].log.published[k]
    decreases j
  {
    if i < j {
      PublishedStays(ss, es, i, j - 1, k);
      assert EgressAt(ss, es, j - 1);
      PublishedStep(ss[j - 1], es[j - 1], ss[j], k);
    }
  }

  /** Publications leave the queue in the order in which they entered it. */
  lemma PublishedInOrder(ss: seq<State>, es: seq<Input>, i: nat, j: nat, v: PeerPosition, n: nat, w: PeerPosition,
      m: nat)
    requires EgressTrace(ss, es) && i < j < |es|
    requires PublishesPeer(ss[i], ss[i + 1], v, n) && PublishesPeer(ss[j], ss[j + 1], w, m)
    ensures n < m
  {
    PublishedStays(ss, es, i + 1, j, |ss[i].log.published|);
    assert EgressAt(ss, es, j) && QueueAt(ss, j);
    PublishStep(ss[j], es[j], ss[j + 1], w, m);
  }

  // ---- the theorems ----

  /**
   Of two published positions of a peer, the later one was accepted later, and if the peer stayed
   listed, in the same session, between the two acceptances, it is a strictly later sample. If the
   peer stayed listed between the two publications, it is a later sample or the same sample again.
   */
  lemma PublishedPeersAdvance(ss: seq<State>, es: seq<Input>, i: nat, j: nat, v: PeerPosition, n: nat,
      w: PeerPosition, m: nat)
    returns (a: nat, b: nat)
    requires IsRun(ss, es) && i < j < |es| && v.peer == w.peer
    requires PublishesPeer(ss[i], ss[i + 1], v, n) && PublishesPeer(ss[j], ss[j + 1], w, m)
    ensures a < b < j && a < i && PeerAt(ss[a], es[a]) && PeerAt(ss[b], es[b])
    ensures es[a].event.position.(validFor := v.validFor) == v && es[b].event.position.(validFor := w.validFor) == w
    ensures StaysListed(ss, es, a, b, v.peer, v.session) ==> LaterThan(w, v)
    ensures StaysListed(ss, es, i, j, v.peer, v.session) ==> LaterThan(w, v) || SameSample(w, v)
  {
    RunIsEgressTrace(ss, es);
    assert EgressAt(ss, es, i) && QueueAt(ss, i);
    PublishStep(ss[i], es[i], ss[i + 1], v, n);
    a, b := TraceBothAcceptances(ss, es, i, j, v, n, w, m);
    if StaysListed(ss, es, a, b, v.peer, v.session) {
      AcceptedAdvance(ss, es, a, b);
    }
    if StaysListed(ss, es, i, j, v.peer, v.session) {
      PublishedAdvance(ss, es, i, j, v, n, w, m);
    }
  }

  lemma TraceBothAcceptances(ss: seq<State>, es: seq<Input>, i: nat, j: nat, v: PeerPosition, n: nat, w: PeerPosition,
      m: nat)
    returns (a: nat, b: nat)
    requires EgressTrace(ss, es) && i < j < |es|
    requires PublishesPeer(ss[i], ss[i + 1], v, n) && PublishesPeer(ss[j], ss[j + 1], w, m)
    ensures a < b < j && a < i && PeerAt(ss[a], es[a]) && PeerAt(ss[b], es[b])
    ensures es[a].event.position.(validFor := v.validFor) == v && es[b].event.position.(validFor := w.validFor) == w
  {
    assert EgressAt(ss, es, i) && QueueAt(ss, i);
    PublishStep(ss[i], es[i], ss[i + 1], v, n);
    assert EgressAt(ss, es, j) && QueueAt(ss, j);
    PublishStep(ss[j], es[j], ss[j + 1], w, m);
    PublishedInOrder(ss, es, i, j, v, n, w, m);
    a := TraceAcceptance(ss, es, i, n);
    b := TraceAcceptance(ss, es, j, m);
    if b <= a {
      QueuedGrow(ss, es, b, a);
    }
  }

  lemma PublishedAdvance(ss: seq<State>, es: seq<Input>, i: nat, j: nat, v: PeerPosition, n: nat, w: PeerPosition,
      m: nat)
    requires EgressTrace(ss, es) && PeersTrace(ss, es) && i < j < |es| && v.peer == w.peer
    requires PublishesPeer(ss[i], ss[i + 1], v, n) && PublishesPeer(ss[j], ss[j + 1], w, m)
    requires StaysListed(ss, es, i, j, v.peer, v.session)
    ensures LaterThan(w, v) || SameSample(w, v)
  {
    assert EgressAt(ss, es, i) && QueueAt(ss, i);
    PublishStep(ss[i], es[i], ss[i + 1], v, n);
    assert EgressAt(ss, es, j) && QueueAt(ss, j);
    PublishStep(ss[j], es[j], ss[j + 1], w, m);
    assert ScopeAt(ss, i) && ScopeAt(ss, j);
    ReachedStays(ss, es, i, j, v);
  }

  lemma AcceptedAdvance(ss: seq<State>, es: seq<Input>, a: nat, b: nat)
    requires PeersTrace(ss, es) && a < b < |es| && PeerAt(ss[a], es[a]) && PeerAt(ss[b], es[b])
    requires es[a].event.position.peer == es[b].event.position.peer
    requires StaysListed(ss, es, a, b, es[a].event.position.peer, es[a].event.position.session)
    ensures LaterThan(es[b].event.position, es[a].event.position)
  {
    assert PeersAt(ss, es, a) && ScopeAt(ss, a);
    AcceptedIsReached(ss[a], es[a], ss[a + 1]);
    ReachedStays(ss, es, a + 1, b, es[a].event.position);
    AcceptedIsLater(ss[b], es[b], es[a].event.position);
  }

  // ---- exactly when a sample can come again ----

  /** Strictly between steps `a` and `b`, no position and no status of `p` is accepted. */
  ghost predicate SilentBetween(ss: seq<State>, es: seq<Input>, a: nat, b: nat, p: Id)
    requires |ss| == |es| + 1
  {
    forall m | a < m < b && m < |es| ::
      !(PeerAt(ss[m], es[m]) && es[m].event.position.peer == p)
          && !(PeerStatusAt(ss[m], es[m]) && es[m].event.status.peer == p)
  }

  /** The mark for `v`'s peer is the one that accepting `v` leaves. */
  predicate MarkedBy(s: State, v: PeerPosition) {
    && s.peers.scope == v.session && v.peer in s.peers.streams
    && s.peers.streams[v.peer] == PeerStream(v.peerStream, v.peerEpoch, v.sequence, v.captured, false)
  }

  /** The step accepts a grant that does not list `v`'s peer, or one of another session. */
  predicate Unlists(s: State, i: Input, v: PeerPosition) {
    GrantsAt(s, i) && !(v.peer in i.event.control.peers && i.event.control.session == Some(v.session))
  }

  lemma MarkStep(s: State, i: Input, t: State, v: PeerPosition)
    requires PeersEffect(s, i, t) && (MarkedBy(s, v) || v.peer !in s.peers.streams)
    requires !(PeerAt(s, i) && i.event.position.peer == v.peer)
             && !(PeerStatusAt(s, i) && i.event.status.peer == v.peer)
    ensures v.peer in t.peers.streams ==> MarkedBy(t, v)
    ensures MarkedBy(t, v) <==> MarkedBy(s, v) && !Unlists(s, i, v)
  {
  }

  lemma {:induction false} MarkIffListed(ss: seq<State>, es: seq<Input>, a: nat, b: nat, v: PeerPosition)
    requires PeersTrace(ss, es) && a < b < |ss| && PeerAt(ss[a], es[a]) && es[a].event.position == v
    requires SilentBetween(ss, es, a, b, v.peer)
    ensures MarkedBy(ss[b], v) <==> StaysListed(ss, es, a, b, v.peer, v.session)
    ensures v.peer in ss[b].peers.streams ==> MarkedBy(ss[b], v)
    decreases b
  {
    assert PeersAt(ss, es, a) && ScopeAt(ss, a);
    if a + 1 < b {
      MarkIffListed(ss, es, a, b - 1, v);
      assert PeersAt(ss, es, b - 1);
      MarkStep(ss[b - 1], es[b - 1], ss[b], v);
    }
  }

  lemma FreshOrLater(s: State, env: Env, v: PeerPosition, w: PeerPosition)
    requires v.peer == w.peer && (v.peer in s.peers.streams ==> MarkedBy(s, v))
    requires ReceiverCurrent(s, env, w.session, w.revision, w.epoch, w.stream) && w.peer in s.consent.grant.value.peers
    ensures AcceptsPeer(s, env, w) <==> !MarkedBy(s, v) || LaterThan(w, v)
  {
  }

  /**
   After `v` was accepted and nothing of its peer since, a position of the peer that names the held
   grant is accepted exactly when it is later than `v` or some grant in between did not list the peer
   in `v`'s session.
   */
  lemma AcceptedIffLaterOrUnlisted(ss: seq<State>, es: seq<Input>, a: nat, b: nat, env: Env, v: PeerPosition,
      w: PeerPosition)
    requires IsRun(ss, es) && a < b < |ss| && PeerAt(ss[a], es[a]) && es[a].event.position == v && v.peer == w.peer
    requires SilentBetween(ss, es, a, b, v.peer)
    requires ReceiverCurrent(ss[b], env, w.session, w.revision, w.epoch, w.stream)
             && w.peer in ss[b].consent.grant.value.peers
    ensures AcceptsPeer(ss[b], env, w) <==> !StaysListed(ss, es, a, b, v.peer, v.session) || LaterThan(w, v)
  {
    RunIsEgressTrace(ss, es);
    MarkIffListed(ss, es, a, b, v);
    FreshOrLater(ss[b], env, v, w);
  }

  /** In particular, the very same sample is accepted again exactly when its peer was unlisted in between. */
  lemma RepeatIffUnlisted(ss: seq<State>, es: seq<Input>, a: nat, b: nat, env: Env, v: PeerPosition)
    requires IsRun(ss, es) && a < b < |ss| && PeerAt(ss[a], es[a]) && es[a].event.position == v
    requires SilentBetween(ss, es, a, b, v.peer)
    requires ReceiverCurrent(ss[b], env, v.session, v.revision, v.epoch, v.stream)
             && v.peer in ss[b].consent.grant.value.peers
    ensures AcceptsPeer(ss[b], env, v) <==> !StaysListed(ss, es, a, b, v.peer, v.session)
  {
    AcceptedIffLaterOrUnlisted(ss, es, a, b, env, v, v);
  }

  /**
   After an accepted closing status, no position of that epoch or an older one is published while the peer stays
   listed.
   */
  lemma ClosedEpochIsSilent(ss: seq<State>, es: seq<Input>, c: nat, j: nat, w: PeerPosition, m: nat)
    requires IsRun(ss, es) && c < j < |es| && PeerStatusAt(ss[c], es[c])
    requires PublishesPeer(ss[j], ss[j + 1], w, m) && w.peer == es[c].event.status.peer
    requires StaysListed(ss, es, c, j, w.peer, es[c].event.status.session)
    ensures w.peerEpoch > es[c].event.status.peerEpoch
  {
    RunIsEgressTrace(ss, es);
    assert EgressAt(ss, es, j) && QueueAt(ss, j);
    PublishStep(ss[j], es[j], ss[j + 1], w, m);
    StaysClosed(ss, es, c, j);
  }

  lemma StaysClosed(ss: seq<State>, es: seq<Input>, c: nat, j: nat)
    requires PeersTrace(ss, es) && c < j < |es| && PeerStatusAt(ss[c], es[c])
    requires StaysListed(ss, es, c, j, es[c].event.status.peer, es[c].event.status.session)
    ensures ClosedPast(ss[j], es[c].event.status.session, es[c].event.status.peer, es[c].event.status.peerEpoch)
  {
    var v := es[c].event.status;
    assert PeersAt(ss, es, c) && ScopeAt(ss, c);
    StatusCloses(ss[c], es[c], ss[c + 1]);
    ClosedStays(ss, es, c + 1, j, v.session, v.peer, v.peerEpoch);
  }

  lemma StatusCloses(s: State, i: Input, t: State)
    requires PeersEffect(s, i, t) && PeerStatusAt(s, i) && ScopeInv(s)
    ensures ClosedPast(t, i.event.status.session, i.event.status.peer, i.event.status.peerEpoch)
  {
  }

  // ---- leases at the Redis boundary ----

  /** A lease rewritten at the boundary lasts at least a millisecond and ends no later than the held one. */
  lemma RewrittenLeaseFits(s: State, env: Env, p: RedisPub)
    requires p.msg.ControlMsg? && (p.msg.control.action.Grant? || p.msg.control.action.Renew?)
             && FinalRedis(s, env, p).Some?
    ensures FinalRedis(s, env, p).value.ControlMsg?
    ensures var c := FinalRedis(s, env, p).value.control;
            c == p.msg.control.(ttlMs := c.ttlMs) && c.ttlMs >= 1 &&
            env.now + c.ttlMs * MILLISECOND <= s.consent.grantAt + s.consent.grantTTL
    ensures s.consent.grant.Some?
  {
  }

  /** In every run, a lease published to the dashboard ends within ten seconds of a registered challenge. */
  lemma PublishedLeaseIsAnchored(ss: seq<State>, es: seq<Input>, k: nat) returns (registered: nat, granted: nat)
    requires IsRun(ss, es) && k < |es| && es[k].event.RedisDeliver? && ss[k].redis.inflight.Some?
    requires var p := ss[k].redis.inflight.value;
             p.msg.ControlMsg? && (p.msg.control.action.Grant? || p.msg.control.action.Renew?)
                 && FinalRedis(ss[k], es[k].env, p).Some?
    ensures registered < granted < k && ActivatesAt(ss[registered], es[registered])
            && GrantsAt(ss[granted], es[granted])
    ensures var msg := FinalRedis(ss[k], es[k].env, ss[k].redis.inflight.value).value;
            msg.ControlMsg? && es[k].env.now + msg.control.ttlMs * MILLISECOND <= es[registered].env.now +
                LEASE_DURATION
  {
    RewrittenLeaseFits(ss[k], es[k].env, ss[k].redis.inflight.value);
    registered, granted := LeaseEndsAtChallengePlusTTL(ss, es, k);
  }
}
