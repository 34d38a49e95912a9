/**
 The GPS source over every run: closing and recovery, the numbering of what is queued on a
 stream, and the freshness of positions.
 */
module SourceProofs {
  import opened Basics
  import opened Messages
  import opened AdapterModel
  import opened AdapterRuns
  import opened ConsentProofs

  // ---- what one step does to the source and to its feed ----

  /** The accepted grant starts a stream. */
  predicate StartsAt(s: State, i: Input) {
    GrantsAt(s, i) && StartsStream(s, i.event.control)
  }

  predicate SourceQuiet(s: State, t: State) {
    && t.log.feed == s.log.feed && t.source.generation >= s.source.generation
    && t.source == s.source.(generation := t.source.generation, lastPositionAt := t.source.lastPositionAt,
                             estimator := t.source.estimator)
  }

  /** This step queues `pub` on the feed, and nothing else. */
  predicate Feeds(s: State, t: State, pub: MqttPub) {
    |t.log.feed| == |s.log.feed| + 1 && t.log.feed[..|s.log.feed|] == s.log.feed && t.log.feed[|s.log.feed|].pub == pub
  }

  function LatestStatus(s: State): MqttPub
    requires s.source.status.Some?
  {
    var st := s.source.status.value;
    StatusPub(st.state, st.sequence, StatusTime(st), s.source.statusGeneration)
  }

  /** The latest status is queued once more, or nothing is. */
  predicate MayRetry(s: State, t: State) {
    && t.source == s.source.(generation := t.source.generation, lastPositionAt := t.source.lastPositionAt,
                             estimator := t.source.estimator, retryAt := t.source.retryAt,
                                 observedAt := t.source.observedAt)
    && t.source.generation >= s.source.generation && t.source.observedAt >= s.source.observedAt
    && (t.log.feed == s.log.feed || (s.source.status.Some? && Feeds(s, t, LatestStatus(s))))
  }

  /** A new status is queued: it becomes the latest and takes the number after `from`. */
  predicate NewStatus(s: State, t: State, from: int) {
    && t.source.status.Some? && t.source.statusGeneration == s.source.statusGeneration + 1
    && Feeds(s, t, LatestStatus(t)) && t.source.sequence == from + 1 == t.source.status.value.sequence
  }

  predicate NewPosition(s: State, t: State, env: Env, captured: Time) {
    && s.consent.grant.Some? && Bound(s.consent.grant.value) && SafePositive(UnixMilli(captured))
    && t.source == s.source.(sequence := s.source.sequence + 1, observedAt := captured, lastPositionAt := env.now,
                             estimator := Some(captured))
    && var g := s.consent.grant.value;
       Feeds(s, t, PositionPub(g.session.value, g.member.value, g.stream.value, g.revision, g.epoch,
           t.source.generation,
                               captured, s.source.sequence + 1))
  }

  /** The source closes for good: whatever recovery was pending is forgotten. */
  predicate Shut(s: State) {
    s.source.closed && !s.source.fixPending
  }

  predicate CloseMove(s: State, t: State) {
    if CloseIsRetry(s) then MayRetry(s, t)
    else
      && Shut(t) && t.source.generation > s.source.generation && t.source.observedAt >= s.source.observedAt
      && (|| (t.log.feed == s.log.feed && t.source.status == s.source.status
          && t.source.sequence == s.source.sequence &&
              t.source.statusGeneration == s.source.statusGeneration)
          || (NewStatus(s, t, s.source.sequence) && t.source.status.value.state.NoFix? && s.consent.grant.Some?))
  }

  predicate FixMove(s: State, t: State, env: Env, captured: Time) {
    if s.source.closed then
      || MayRetry(s, t)
      || (&& NewStatus(s, t, s.source.sequence) && t.source.status.value.state.FixAvailable? && s.consent.grant.Some?
          && t.source.status.value.captured == Some(UnixMilli(captured))
          && t.source == s.source.(fixPending := true, recoveryAfter := captured, observedAt := captured,
                                   sequence := t.source.sequence, status := t.source.status,
                                   statusGeneration := t.source.statusGeneration, retryAt := t.source.retryAt))
    else
      || (SourceQuiet(s.(source := s.source.(observedAt := captured)), t) && captured > s.source.observedAt)
      || (NewPosition(s, t, env, captured) && captured > s.source.observedAt)
  }

  predicate GpsMove(s: State, t: State, env: Env, captured: Option<Time>, fixOk: bool) {
    if LosesFix(s, env, captured, fixOk) then CloseMove(s, t)
    else if captured.value <= s.source.observedAt then t.source == s.source && t.log.feed == s.log.feed
    else FixMove(s, t, env, captured.value)
  }

  predicate GrantSource(s: State, t: State, env: Env, c: Control) {
    var from := if StartsStream(s, c) then 0 else s.source.sequence;
    && t.source.generation >= s.source.generation && t.source.observedAt == s.source.observedAt
    && (if StartsStream(s, c) then Shut(t) == (s.source.closed && !s.source.fixPending) && t.source.closed == Shut(t)
        && !t.source.fixPending
        else t.source.closed == s.source.closed && t.source.fixPending == s.source.fixPending)
    && (|| (t.log.feed == s.log.feed && t.source.sequence == from && t.source.status == s.source.status &&
            t.source.statusGeneration == s.source.statusGeneration)
        || (NewStatus(s, t, from) && t.source.status.value.state.NoFix? && t.source.closed))
  }

  predicate FeedEffect(s: State, i: Input, t: State) {
    match i.event
    case GpsIn(captured, fixOk) => GpsMove(s, t, i.env, captured, fixOk)
    case Tick => MayRetry(s, t)
    case ControlIn(c, _) => if AcceptsGrant(s, i.env, c) then GrantSource(s, t, i.env, c) else SourceQuiet(s, t)
    case _ => SourceQuiet(s, t)
  }

  lemma CloseEffect(s: State, m: State, env: Env)
    requires m.source == s.source.(generation := m.source.generation, estimator := m.source.estimator,
             observedAt := m.source.observedAt)
    requires m.log.feed == s.log.feed && m.consent == s.consent
    requires m.source.generation >= s.source.generation && m.source.observedAt >= s.source.observedAt
    ensures CloseMove(s, CloseSource(m, env))
  {
  }

  lemma FixEffect(s: State, env: Env, captured: Time)
    requires captured > s.source.observedAt
    ensures FixMove(s, OnFix(s.(source := s.source.(observedAt := captured)), env, captured), env, captured)
  {
  }

  lemma GpsEffect(s: State, env: Env, captured: Option<Time>, fixOk: bool)
    ensures GpsMove(s, OnGps(s, env, captured, fixOk), env, captured, fixOk)
  {
    if LosesFix(s, env, captured, fixOk) {
      CloseEffect(s, ResetEstimator(InvalidatePositions(s)), env);
      if captured.Some? {
        var s1 := s.(source := s.source.(observedAt := captured.value));
        if captured.value > s.source.observedAt {
          CloseEffect(s, ResetEstimator(InvalidatePositions(s1)), env);
        }
      }
    } else if captured.value > s.source.observedAt {
      FixEffect(s, env, captured.value);
    }
  }

  lemma GrantEffect(s: State, env: Env, c: Control)
    requires AcceptsGrant(s, env, c) && c.cadenceMs.Some?
    ensures GrantSource(s, InstallGrant(s, env, c), env, c)
  {
  }

  lemma TickFeed(s: State, env: Env)
    ensures MayRetry(s, OnTick(s, env))
  {
  }

  lemma ControlFeed(s: State, env: Env, c: Control, id: Option<Id>)
    requires ValidControl(c)
    ensures var t := OnControl(s, env, c, id);
            if AcceptsGrant(s, env, c) then GrantSource(s, t, env, c) else SourceQuiet(s, t)
  {
    if AcceptsGrant(s, env, c) {
      GrantEffect(s, env, c);
    }
  }

  lemma RefreshFeed(s: State, env: Env, blocked: bool, hello: Option<Id>, first: Option<Id>, second: Option<Id>)
    ensures SourceQuiet(s, OnRefresh(s, env, blocked, hello, first, second))
  {
  }

  lemma SnapshotFeed(s: State, env: Env, st: LocalStop, evict: Id, id: Option<Id>)
    ensures SourceQuiet(s, OnSnapshot(s, env, st, evict, id))
  {
  }

  lemma LinkFeed(s: State, env: Env, client: nat, attempt: nat, connection: Option<Id>, hello: Option<Id>,
      id: Option<Id>)
    ensures SourceQuiet(s, OnConnectFinish(s, env, client, attempt, connection, hello, id))
    ensures SourceQuiet(s, OnDisconnected(s, client)) && SourceQuiet(s, OnFailClosed(s))
  {
  }

  lemma NextFeed(s: State, i: Input)
    requires Enabled(s, i)
    ensures FeedEffect(s, i, Next(s, i))
  {
    match i.event
    case GpsIn(captured, fixOk) => GpsEffect(s, i.env, captured, fixOk);
    case Tick => TickFeed(s, i.env);
    case ControlIn(c, id) => ControlFeed(s, i.env, c, id);
    case Refresh(blocked, hello, first, second) => RefreshFeed(s, i.env, blocked, hello, first, second);
    case SnapshotIn(st, evict, id) => SnapshotFeed(s, i.env, st, evict, id);
    case ConnectFinish(client, attempt, connection, hello, id) =>
      LinkFeed(s, i.env, client, attempt, connection, hello, id);
    case Disconnected(client) => LinkFeed(s, i.env, client, 0, None, None, None);
    case FailClosed => LinkFeed(s, i.env, 0, 0, None, None, None);
    case _ => OthersFeed(s, i);
  }

  lemma OthersFeed(s: State, i: Input)
    requires Enabled(s, i) && !i.event.GpsIn? && !i.event.Tick? && !i.event.ControlIn? && !i.event.Refresh?
    requires !i.event.SnapshotIn? && !i.event.ConnectFinish? && !i.event.Disconnected? && !i.event.FailClosed?
    ensures SourceQuiet(s, Next(s, i))
  {
  }

  ghost predicate FeedTrace(ss: seq<State>, es: seq<Input>) {
    && |ss| == |es| + 1 && ss[0].log.feed == [] && ss[0].source.status.None? && ss[0].consent.grant.None?
    && forall k: nat | k < |es| :: FeedAt(ss, es, k)
  }

  ghost predicate FeedAt(ss: seq<State>, es: seq<Input>, k: nat)
    requires |ss| == |es| + 1 && k < |es|
  {
    FeedEffect(ss[k], es[k], ss[k + 1])
  }

  lemma RunIsFeedTrace(ss: seq<State>, es: seq<Input>)
    requires IsRun(ss, es)
    ensures FeedTrace(ss, es)
  {
    forall k: nat | k < |es|
      ensures FeedAt(ss, es, k)
    {
      assert StepAt(ss, es, k);
      NextFeed(ss[k], es[k]);
    }
  }

  // ---- closing and recovery ----

  /** A fix captured later than anything seen before is announced as available again. */
  predicate AnnouncesAt(s: State, i: Input, t: State) {
    && i.event.GpsIn? && i.event.captured.Some? && t.source.observedAt == i.event.captured.value > s.source.observedAt
    && t.source.status.Some? && t.source.status.value.state.FixAvailable? && Feeds(s, t, LatestStatus(t))
    && t.source.status.value.captured == Some(UnixMilli(i.event.captured.value))
  }

  lemma ReopenOrigin(s: State, i: Input, t: State)
    requires FeedEffect(s, i, t) && s.source.closed && !t.source.closed
    ensures StartsAt(s, i) && s.source.fixPending
  {
  }

  lemma PendingOrigin(s: State, i: Input, t: State)
    requires FeedEffect(s, i, t) && !s.source.fixPending && t.source.fixPending
    ensures AnnouncesAt(s, i, t)
  {
  }

  lemma ObservedStep(s: State, i: Input, t: State)
    requires FeedEffect(s, i, t)
    ensures s.source.observedAt <= t.source.observedAt && s.source.generation <= t.source.generation
  {
  }

  lemma {:induction false} SourceGrows(ss: seq<State>, es: seq<Input>, i: nat, j: nat)
    requires FeedTrace(ss, es) && i <= j < |ss|
    ensures ss[i].source.observedAt <= ss[j].source.observedAt && ss[i].source.generation <= ss[j].source.generation
    decreases j
  {
    if i < j {
      SourceGrows(ss, es, i, j - 1);
      assert FeedAt(ss, es, j - 1);
      ObservedStep(ss[j - 1], es[j - 1], ss[j]);
    }
  }

  lemma {:induction false} TraceReopen(ss: seq<State>, es: seq<Input>, lo: nat, j: nat) returns (g: nat)
    requires FeedTrace(ss, es) && lo <= j < |ss| && ss[lo].source.closed && !ss[j].source.closed
    ensures lo <= g < j && StartsAt(ss[g], es[g]) && ss[g].source.fixPending
    decreases j
  {
    if ss[j - 1].source.closed {
      g := j - 1;
      assert FeedAt(ss, es, g);
      ReopenOrigin(ss[g], es[g], ss[j]);
    } else {
      g := TraceReopen(ss, es, lo, j - 1);
    }
  }

  lemma {:induction false} TraceAnnouncement(ss: seq<State>, es: seq<Input>, lo: nat, j: nat) returns (f: nat)
    requires FeedTrace(ss, es) && lo <= j < |ss| && !ss[lo].source.fixPending && ss[j].source.fixPending
    ensures lo <= f < j && AnnouncesAt(ss[f], es[f], ss[f + 1])
    decreases j
  {
    if !ss[j - 1].source.fixPending {
      f := j - 1;
      assert FeedAt(ss, es, f);
      PendingOrigin(ss[f], es[f], ss[j]);
    } else {
      f := TraceAnnouncement(ss, es, lo, j - 1);
    }
  }

  /** This step queues the position `pub`. */
  predicate QueuesPositionAt(s: State, t: State, pub: MqttPub) {
    pub.PositionPub? && Feeds(s, t, pub)
  }

  lemma PositionStep(s: State, i: Input, t: State, pub: MqttPub)
    requires FeedEffect(s, i, t) && QueuesPositionAt(s, t, pub)
    ensures !s.source.closed && s.consent.grant.Some?
    ensures s.source.observedAt < pub.captured == t.source.observedAt
    ensures pub.sequence == s.source.sequence + 1
  {
  }

  /**
   Once the source is shut, a position is queued (at step `j`) or authorized (in state `j`) only
   after a `fix_available` status was queued and then a stream-starting grant accepted; and a
   position queued at `j` was captured strictly later than that fix.
   */
  lemma PositionsNeedRecovery(ss: seq<State>, es: seq<Input>, i: nat, j: nat, env: Env, pub: MqttPub)
    returns (announced: nat, restarted: nat)
    requires IsRun(ss, es) && i <= j < |ss| && Shut(ss[i]) && pub.PositionPub?
    requires Authorized(ss[j], env, pub) || (j < |es| && QueuesPositionAt(ss[j], ss[j + 1], pub))
    ensures i <= announced < restarted < j
    ensures AnnouncesAt(ss[announced], es[announced], ss[announced + 1]) && StartsAt(ss[restarted], es[restarted])
    ensures j < |es| && QueuesPositionAt(ss[j], ss[j + 1], pub) ==> pub.captured > es[announced].event.captured.value
  {
    RunIsFeedTrace(ss, es);
    if j < |es| && QueuesPositionAt(ss[j], ss[j + 1], pub) {
      assert FeedAt(ss, es, j);
      PositionStep(ss[j], es[j], ss[j + 1], pub);
    }
    announced, restarted := RecoverInTrace(ss, es, i, j);
  }

  lemma RecoverInTrace(ss: seq<State>, es: seq<Input>, i: nat, j: nat) returns (announced: nat, restarted: nat)
    requires FeedTrace(ss, es) && i <= j < |ss| && Shut(ss[i]) && !ss[j].source.closed
    ensures i <= announced < restarted < j
    ensures AnnouncesAt(ss[announced], es[announced], ss[announced + 1]) && StartsAt(ss[restarted], es[restarted])
    ensures es[announced].event.captured.value <= ss[j].source.observedAt
  {
    restarted := TraceReopen(ss, es, i, j);
    announced := TraceAnnouncement(ss, es, i, restarted);
    SourceGrows(ss, es, announced + 1, j);
  }

  /**
   A GPS message without a usable fix shuts the source exactly when it does not find a recovery
   pending whose announcement was overwritten by another status.
   */
  lemma ClosingShutsUnlessOverwritten(s: State, env: Env, captured: Option<Time>, fixOk: bool)
    requires LosesFix(s, env, captured, fixOk)
    ensures Shut(OnGps(s, env, captured, fixOk)) <==> !(s.source.fixPending && CloseIsRetry(s))
  {
    GpsEffect(s, env, captured, fixOk);
  }

  /** In the excepted case the next stream-starting grant reopens the source without any new fix. */
  lemma OverwrittenClosingIsForgotten(s: State, env: Env, captured: Option<Time>, fixOk: bool, later: Env, c: Control)
    requires LosesFix(s, env, captured, fixOk) && s.source.fixPending && CloseIsRetry(s)
    requires c.cadenceMs.Some?
    requires var t := OnGps(s, env, captured, fixOk); AcceptsGrant(t, later, c) && StartsStream(t, c)
    ensures !InstallGrant(OnGps(s, env, captured, fixOk), later, c).source.closed
  {
    GpsEffect(s, env, captured, fixOk);
    GrantEffect(OnGps(s, env, captured, fixOk), later, c);
  }

  // ---- capture times ----

  /** Positions of the feed are captured in strictly increasing order, none after `latest`. */
  ghost predicate CapturesIncrease(feed: seq<Live>, latest: Time) {
    && (forall a | 0 <= a < |feed| && feed[a].pub.PositionPub? :: feed[a].pub.captured <= latest)
    && (forall a, b | 0 <= a < b < |feed| && feed[a].pub.PositionPub? && feed[b].pub.PositionPub? ::
          feed[a].pub.captured < feed[b].pub.captured)
  }

  predicate FeedGrowth(s: State, t: State) {
    || t.log.feed == s.log.feed
    || (&& |t.log.feed| == |s.log.feed| + 1 && t.log.feed[..|s.log.feed|] == s.log.feed
        && var pub := t.log.feed[|s.log.feed|].pub;
           pub.StatusPub? || (pub.PositionPub? && s.source.observedAt < pub.captured == t.source.observedAt))
  }

  lemma FeedGrows(s: State, i: Input, t: State)
    requires FeedEffect(s, i, t)
    ensures FeedGrowth(s, t) && s.source.observedAt <= t.source.observedAt
  {
  }

  lemma {:induction false} CapturesStayOrdered(ss: seq<State>, es: seq<Input>, j: nat)
    requires FeedTrace(ss, es) && j < |ss|
    ensures CapturesIncrease(ss[j].log.feed, ss[j].source.observedAt)
  {
    if j > 0 {
      CapturesStayOrdered(ss, es, j - 1);
      assert FeedAt(ss, es, j - 1);
      FeedGrows(ss[j - 1], es[j - 1], ss[j]);
      ExtendCaptures(ss[j - 1], ss[j]);
    }
  }

  lemma ExtendCaptures(s: State, t: State)
    requires CapturesIncrease(s.log.feed, s.source.observedAt) && FeedGrowth(s, t)
             && s.source.observedAt <= t.source.observedAt
    ensures CapturesIncrease(t.log.feed, t.source.observedAt)
  {
    assert forall a | 0 <= a < |s.log.feed| :: t.log.feed[a] == s.log.feed[a] by {
      if t.log.feed != s.log.feed {
        assert forall a | 0 <= a < |s.log.feed| :: t.log.feed[..|s.log.feed|][a] == t.log.feed[a];
      }
    }
  }

  /**
   Over the adapter's whole life, across streams, sessions and connections, queued positions are
   captured at strictly increasing times; in the milliseconds sent on the wire they never decrease.
   */
  lemma CaptureTimesStrictlyIncrease(ss: seq<State>, es: seq<Input>, j: nat, a: nat, b: nat)
    requires IsRun(ss, es) && j < |ss| && a < b < |ss[j].log.feed|
    requires ss[j].log.feed[a].pub.PositionPub? && ss[j].log.feed[b].pub.PositionPub?
    ensures ss[j].log.feed[a].pub.captured < ss[j].log.feed[b].pub.captured
    ensures UnixMilli(ss[j].log.feed[a].pub.captured) <= UnixMilli(ss[j].log.feed[b].pub.captured)
  {
    RunIsFeedTrace(ss, es);
    CapturesStayOrdered(ss, es, j);
  }

  lemma PositionFromInput(s: State, i: Input, t: State, pub: MqttPub)
    requires FeedEffect(s, i, t) && QueuesPositionAt(s, t, pub)
    ensures i.event.GpsIn? && i.event.captured == Some(pub.captured) && SafePositive(UnixMilli(pub.captured))
    ensures pub.generation == s.source.generation == t.source.generation
  {
  }

  /** The step that queued item `a` of the feed. */
  lemma {:induction false} TraceFeed(ss: seq<State>, es: seq<Input>, j: nat, a: nat) returns (k: nat)
    requires FeedTrace(ss, es) && j < |ss| && a < |ss[j].log.feed|
    ensures k < j && |ss[k].log.feed| == a && |ss[k + 1].log.feed| == a + 1
            && ss[k + 1].log.feed[a] == ss[j].log.feed[a]
    ensures ss[j].log.feed[a].pub.PositionPub? ==> QueuesPositionAt(ss[k], ss[k + 1], ss[j].log.feed[a].pub)
    decreases j
  {
    k := j - 1;
    assert FeedAt(ss, es, k);
    FeedGrows(ss[k], es[k], ss[j]);
    if a < |ss[k].log.feed| {
      assert ss[j].log.feed[a] == ss[k].log.feed[a];
      k := TraceFeed(ss, es, k, a);
    }
  }

  /** All GPS timestamps of the run are in `T`. */
  ghost predicate StampedFrom(T: iset<Time>, es: seq<Input>) {
    forall k | 0 <= k < |es| && es[k].event.GpsIn? && es[k].event.captured.Some? :: es[k].event.captured.value in T
  }

  /** A position whose generation was bumped is not authorized in any later state. */
  lemma BumpedPositionIsNeverAuthorized(ss: seq<State>, es: seq<Input>, i: nat, j: nat, env: Env, pub: MqttPub)
    requires IsRun(ss, es) && i <= j < |ss| && pub.PositionPub? && pub.generation < ss[i].source.generation
    ensures !Authorized(ss[j], env, pub)
  {
    RunIsFeedTrace(ss, es);
    SourceGrows(ss, es, i, j);
  }

  // ---- numbering ----

  function FedPub(s: State, t: State): MqttPub
    requires |t.log.feed| == |s.log.feed| + 1
  {
    t.log.feed[|s.log.feed|].pub
  }

  /** The step queues a position or a status that is not a repetition. */
  predicate FeedsNew(s: State, t: State) {
    && |t.log.feed| == |s.log.feed| + 1
    && (FedPub(s, t).PositionPub? ||
        (FedPub(s, t).StatusPub? && FedPub(s, t).statusGeneration != s.source.statusGeneration))
  }

  function Number(pub: MqttPub): int
    requires pub.PositionPub? || pub.StatusPub?
  {
    if pub.PositionPub? then pub.sequence else pub.statusSeq
  }

  predicate NumberMove(s: State, t: State, starts: bool) {
    t.source.sequence == (if starts then 0 else s.source.sequence) + (if FeedsNew(s, t) then 1 else 0)
  }

  lemma NumberStep(s: State, i: Input, t: State)
    requires FeedEffect(s, i, t)
    ensures NumberMove(s, t, StartsAt(s, i))
    ensures FeedsNew(s, t) ==> Number(FedPub(s, t)) == t.source.sequence && (s.consent.grant.Some? || GrantsAt(s, i))
  {
  }

  /** How many new items the steps from `lo` up to `k` queued. */
  function NewItems(ss: seq<State>, lo: nat, k: nat): nat
    requires lo <= k < |ss|
    decreases k
  {
    if k == lo then 0 else NewItems(ss, lo, k - 1) + (if FeedsNew(ss[k - 1], ss[k]) then 1 else 0)
  }

  /** No stream is started after step `lo` and up to step `k`. */
  ghost predicate StreamSince(ss: seq<State>, es: seq<Input>, lo: nat, k: nat)
    requires |ss| == |es| + 1
  {
    lo <= k < |es| && StartsAt(ss[lo], es[lo]) && forall m | lo < m <= k :: !StartsAt(ss[m], es[m])
  }

  lemma {:induction false} SequenceCounts(ss: seq<State>, es: seq<Input>, lo: nat, k: nat)
    requires |ss| == |es| + 1 && StreamSince(ss, es, lo, k)
    requires forall m | lo <= m <= k :: NumberMove(ss[m], ss[m + 1], m == lo)
    ensures ss[k + 1].source.sequence == NewItems(ss, lo, k + 1)
    decreases k
  {
    assert NumberMove(ss[k], ss[k + 1], k == lo);
    if lo < k {
      SequenceCounts(ss, es, lo, k - 1);
    }
  }

  lemma HeldStep(s: State, i: Input, t: State)
    requires WellFormed(i.event) && Effect(s, i, t) && t.consent.grant.Some?
    ensures s.consent.grant.Some? || GrantsAt(s, i)
  {
    GrantOrigin(s, i, t);
  }

  lemma {:induction false} StreamStart(ss: seq<State>, es: seq<Input>, k: nat) returns (lo: nat)
    requires |ss| == |es| + 1 && k < |es| && ss[0].consent.grant.None?
    requires forall m | 0 <= m < |es| && ss[m + 1].consent.grant.Some? ::
        ss[m].consent.grant.Some? || GrantsAt(ss[m], es[m])
    requires ss[k].consent.grant.Some? || GrantsAt(ss[k], es[k])
    ensures StreamSince(ss, es, lo, k)
    decreases k
  {
    if StartsAt(ss[k], es[k]) {
      lo := k;
    } else {
      var m := k - 1;
      assert ss[m + 1].consent.grant.Some?;
      lo := StreamStart(ss, es, m);
    }
  }

  /**
   Every new position or status belongs to a stream started at some step `lo`, and its number is
   one more than the count of new items queued on that stream before: 1, 2, 3, … without gap or reuse.
   */
  lemma StreamNumbering(ss: seq<State>, es: seq<Input>, k: nat) returns (lo: nat)
    requires IsRun(ss, es) && k < |es| && FeedsNew(ss[k], ss[k + 1])
    ensures StreamSince(ss, es, lo, k) && Number(FedPub(ss[k], ss[k + 1])) == NewItems(ss, lo, k) + 1
  {
    RunIsFeedTrace(ss, es);
    RunIsTrace(ss, es);
    assert FeedAt(ss, es, k);
    NumberStep(ss[k], es[k], ss[k + 1]);
    lo := NumberedStream(ss, es, k);
  }

  lemma NumberedStream(ss: seq<State>, es: seq<Input>, k: nat) returns (lo: nat)
    requires FeedTrace(ss, es) && Trace(ss, es) && k < |es| && (ss[k].consent.grant.Some? || GrantsAt(ss[k], es[k]))
    ensures StreamSince(ss, es, lo, k) && ss[k + 1].source.sequence == NewItems(ss, lo, k + 1)
  {
    forall m | 0 <= m < |es| && ss[m + 1].consent.grant.Some?
      ensures ss[m].consent.grant.Some? || GrantsAt(ss[m], es[m])
    {
      assert EffectAt(ss, es, m);
      HeldStep(ss[m], es[m], ss[m + 1]);
    }
    lo := StreamStart(ss, es, k);
    forall m | lo <= m <= k
      ensures NumberMove(ss[m], ss[m + 1], m == lo)
    {
      assert FeedAt(ss, es, m);
      NumberStep(ss[m], es[m], ss[m + 1]);
    }
    SequenceCounts(ss, es, lo, k);
  }

  lemma StatusOrigin(s: State, i: Input, t: State)
    requires FeedEffect(s, i, t) && t.source.status.Some?
    ensures
      || (FeedsNew(s, t) && FedPub(s, t) == LatestStatus(t))
      || (s.source.status.Some? && LatestStatus(s) == LatestStatus(t) && !(FeedsNew(s, t) && FedPub(s, t).StatusPub?))
  {
  }

  lemma RetryStep(s: State, i: Input, t: State)
    requires FeedEffect(s, i, t) && |t.log.feed| != |s.log.feed| && !FeedsNew(s, t)
    ensures |t.log.feed| == |s.log.feed| + 1 && s.source.status.Some? && FedPub(s, t) == LatestStatus(s)
  {
  }

  /** The latest status was queued as new at some step, and no new status since. */
  lemma {:induction false} TraceStatus(ss: seq<State>, es: seq<Input>, k: nat) returns (m: nat)
    requires FeedTrace(ss, es) && k < |ss| && ss[k].source.status.Some?
    ensures m < k && FeedsNew(ss[m], ss[m + 1]) && FedPub(ss[m], ss[m + 1]) == LatestStatus(ss[k])
    ensures forall l | m < l < k :: !(FeedsNew(ss[l], ss[l + 1]) && FedPub(ss[l], ss[l + 1]).StatusPub?)
    decreases k
  {
    m := k - 1;
    assert FeedAt(ss, es, m);
    StatusOrigin(ss[m], es[m], ss[k]);
    if !(FeedsNew(ss[m], ss[k]) && FedPub(ss[m], ss[k]) == LatestStatus(ss[k])) {
      m := TraceStatus(ss, es, k - 1);
    }
  }

  /** Whatever else is queued on the feed repeats, unchanged, the latest status queued before. */
  lemma RetryRepeatsLatestStatus(ss: seq<State>, es: seq<Input>, k: nat) returns (m: nat)
    requires IsRun(ss, es) && k < |es| && |ss[k + 1].log.feed| != |ss[k].log.feed| && !FeedsNew(ss[k], ss[k + 1])
    ensures |ss[k + 1].log.feed| == |ss[k].log.feed| + 1
    ensures m < k && FeedsNew(ss[m], ss[m + 1]) && FedPub(ss[k], ss[k + 1]) == FedPub(ss[m], ss[m + 1])
    ensures forall l | m < l < k :: !(FeedsNew(ss[l], ss[l + 1]) && FedPub(ss[l], ss[l + 1]).StatusPub?)
  {
    RunIsFeedTrace(ss, es);
    assert FeedAt(ss, es, k);
    RetryStep(ss[k], es[k], ss[k + 1]);
    m := TraceStatus(ss, es, k);
  }

  lemma NoFixCloses(s: State, i: Input, t: State)
    requires FeedEffect(s, i, t) && FeedsNew(s, t) && FedPub(s, t).StatusPub? && FedPub(s, t).state.NoFix?
    ensures t.source.closed
  {
  }

  lemma ClosedStep(s: State, i: Input, t: State)
    requires FeedEffect(s, i, t) && s.source.closed && !StartsAt(s, i)
    ensures t.source.closed
  {
  }

  lemma {:induction false} ClosedUntilStream(ss: seq<State>, es: seq<Input>, lo: nat, j: nat)
    requires FeedTrace(ss, es) && lo <= j < |ss| && ss[lo].source.closed
    requires forall m | lo <= m < j :: !StartsAt(ss[m], es[m])
    ensures ss[j].source.closed
    decreases j
  {
    if lo < j {
      ClosedUntilStream(ss, es, lo, j - 1);
      assert FeedAt(ss, es, j - 1);
      ClosedStep(ss[j - 1], es[j - 1], ss[j]);
    }
  }

  /** No position follows a `no_fix` status on the same stream. */
  lemma NoPositionAfterNoFix(ss: seq<State>, es: seq<Input>, m: nat, k: nat, pub: MqttPub)
    requires IsRun(ss, es) && m < k < |es| && FeedsNew(ss[m], ss[m + 1])
    requires FedPub(ss[m], ss[m + 1]).StatusPub? && FedPub(ss[m], ss[m + 1]).state.NoFix?
    requires forall l | m < l <= k :: !StartsAt(ss[l], es[l])
    ensures !QueuesPositionAt(ss[k], ss[k + 1], pub)
  {
    RunIsFeedTrace(ss, es);
    assert FeedAt(ss, es, m);
    NoFixCloses(ss[m], es[m], ss[m + 1]);
    ClosedUntilStream(ss, es, m + 1, k);
    assert FeedAt(ss, es, k);
    ClosedQueuesNoPosition(ss[k], es[k], ss[k + 1], pub);
  }

  lemma ClosedQueuesNoPosition(s: State, i: Input, t: State, pub: MqttPub)
    requires FeedEffect(s, i, t) && s.source.closed
    ensures !QueuesPositionAt(s, t, pub)
  {
  }
}
