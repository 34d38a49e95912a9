/**
 Promises that the service does not keep in full, each with an input or a run that shows it:

 - after the source has lost its fix, a position can be queued without a new fix having been announced
   (exactly when not: SourceProofs.ClosingShutsUnlessOverwritten and PositionsNeedRecovery);
 - a peer position can be published twice (exactly when it can be accepted again:
   RedisProofs.RepeatIffUnlisted);
 - two positions can carry the same time on the wire (exactly when: WireTimeProofs.WireTimesStrictIff);
 - labels can be cut although the canonical message would fit, and such a control is dropped at the Redis
   boundary (exactly when: ControlLabels.CutIffEscapesOverflow and ReencodesIff, with the input there);
 - the snapshot buffer can exceed its limit (exactly when not: SnapshotBuffer.WithinLimitIff).
 */
module Counterexamples {
  import opened Basics
  import opened Messages
  import opened AdapterModel
  import opened AdapterRuns
  import opened SourceProofs
  import opened GrantedRun
  import SnapshotBuffer

  ghost const ANY: iset<Time> := iset t: Time | true

  ghost predicate Reachable(s: State) {
    Reaches(ANY, s)
  }

  lemma Step(s: State, i: Input)
    requires Reachable(s) && Enabled(s, i)
    ensures Reachable(Next(s, i))
  {
    ReachStep(ANY, s, i);
  }

  const NOON: Time := UNIX_EPOCH + 1000 * SECOND
  const ENV := Env(NOON, true)

  // ---- a closing that is forgotten ----

  function StatusNow(sequence: int, state: SourceState, captured: Option<int>): SourceStatus {
    SourceStatus("c", "s", "m", 1, 1, "x", sequence, state, captured)
  }

  function Closed(): State {
    var s := Granted(NOON, []);
    s.(source := Source(5, 0, 0, None, Some(StatusNow(1, NoFix, None)), 1, true, NOON + STATUS_RETRY, false, 0, 1),
       log := s.log.(feed := [Live(1, "c", StatusPub(NoFix, 1, 0, 1), NOON + 5 * SECOND)]))
  }

  /** A fix is announced ... */
  function Pending(): State {
    var s := Closed();
    s.(source := Source(5, 0, NOON, None, Some(StatusNow(2, FixAvailable, Some(1_000_000))), 2, true,
        NOON + STATUS_RETRY, true, NOON, 2),
       log := s.log.(feed := s.log.feed + [Live(1, "c", StatusPub(FixAvailable, 2, NOON, 2), NOON + 5 * SECOND)]))
  }

  /** ... and a renewal of the same stream repeats `no_fix`, which replaces the announcement. */
  function Overwritten(): State {
    var s := Pending();
    var c := Lease(Renew, "x", 1, []);
    var pub := RedisPub(2, ControlMsg(c), NOON, NOON + LEASE_DURATION);
    s.(consent := s.consent.(grant := Some(c), lastAuthority := Some(c)),
       source := Source(5, 0, NOON, None, Some(StatusNow(3, NoFix, None)), 3, true, NOON + STATUS_RETRY, true, NOON, 3),
       redis := RedisEgress(3, s.redis.queue + [pub], None),
       log := s.log.(feed := s.log.feed + [Live(1, "c", StatusPub(NoFix, 3, 0, 3), NOON + 5 * SECOND)],
                     queued := s.log.queued + [pub]))
  }

  lemma ClosedStep()
    ensures OnGps(Granted(NOON, []), ENV, None, false) == Closed()
  {
  }

  lemma ClosedIsReachable()
    ensures Reachable(Closed())
  {
    GrantedIsReachable(ANY, NOON, []);
    Step(Granted(NOON, []), Input(ENV, GpsIn(None, false)));
    ClosedStep();
  }

  lemma PendingStep()
    ensures OnGps(Closed(), ENV, Some(NOON), true) == Pending()
  {
  }

  lemma PendingIsReachable()
    ensures Reachable(Pending())
  {
    ClosedIsReachable();
    Step(Closed(), Input(ENV, GpsIn(Some(NOON), true)));
    PendingStep();
  }

  lemma OverwrittenStep()
    ensures OnControl(Pending(), ENV, Lease(Renew, "x", 1, []), None) == Overwritten()
  {
    assert SetReplayScope(Pending().peers, Lease(Renew, "x", 1, [])) == Pending().peers;
  }

  lemma OverwrittenIsReachable()
    ensures Reachable(Overwritten())
  {
    PendingIsReachable();
    Step(Pending(), Input(ENV, ControlIn(Lease(Renew, "x", 1, []), None)));
    OverwrittenStep();
  }

  function Lost(): State {
    Overwritten().(source := Overwritten().source.(generation := 6))
  }

  lemma LostStep()
    ensures OnGps(Overwritten(), ENV, None, false) == Lost()
  {
  }

  function Regranted(): State {
    var s := Lost();
    var c := Lease(Grant, "y", 2, []);
    var pub := RedisPub(3, ControlMsg(c), NOON, NOON + LEASE_DURATION);
    s.(consent := s.consent.(grant := Some(c), lastAuthority := Some(c)),
       source := s.source.(generation := 7, sequence := 0, closed := false, fixPending := false),
       redis := RedisEgress(4, s.redis.queue + [pub], None),
       log := s.log.(queued := s.log.queued + [pub]))
  }

  lemma RegrantedStep()
    ensures OnControl(Lost(), ENV, Lease(Grant, "y", 2, []), None) == Regranted()
  {
    assert SetReplayScope(Lost().peers, Lease(Grant, "y", 2, [])) == Lost().peers;
  }

  const FIX_TIME: Time := NOON + MILLISECOND
  const POSITION := PositionPub("s", "m", "y", 1, 2, 7, FIX_TIME, 1)

  lemma FixedStep()
    ensures Feeds(Regranted(), OnGps(Regranted(), Env(FIX_TIME, true), Some(FIX_TIME), true), POSITION)
  {
  }

  const LOST := Input(ENV, GpsIn(None, false))
  const REGRANT := Input(ENV, ControlIn(Lease(Grant, "y", 2, []), None))
  const FIXED := Input(Env(FIX_TIME, true), GpsIn(Some(FIX_TIME), true))

  /**
   The source loses its fix and a position is queued two steps later, although no fix was announced
   in between: the loss came while an overwritten recovery was pending.
   */
  lemma ForgottenClosing() returns (s: State, t: State, u: State)
    ensures Reachable(s) && Enabled(s, LOST) && t == Next(s, LOST) && Enabled(t, REGRANT) && u == Next(t, REGRANT)
            && Enabled(u, FIXED)
    ensures LosesFix(s, ENV, None, false) && s.source.closed
    ensures !AnnouncesAt(s, LOST, t) && !AnnouncesAt(t, REGRANT, u) && QueuesPositionAt(u, Next(u, FIXED), POSITION)
  {
    s, t, u := Overwritten(), Lost(), Regranted();
    OverwrittenIsReachable();
    LossTaken();
    RegrantTaken();
    FixTaken();
  }

  lemma LossTaken()
    ensures Enabled(Overwritten(), LOST) && Next(Overwritten(), LOST) == Lost()
            && !AnnouncesAt(Overwritten(), LOST, Lost())
    ensures LosesFix(Overwritten(), ENV, None, false) && Overwritten().source.closed
  {
    LostStep();
  }

  lemma RegrantTaken()
    ensures Enabled(Lost(), REGRANT) && Next(Lost(), REGRANT) == Regranted()
            && !AnnouncesAt(Lost(), REGRANT, Regranted())
  {
    RegrantedStep();
  }

  lemma FixTaken()
    ensures Enabled(Regranted(), FIXED) && QueuesPositionAt(Regranted(), Next(Regranted(), FIXED), POSITION)
  {
    FixedStep();
  }

  // ---- a peer position that is published twice ----

  const HEARD := PeerPosition("s", 1, 1, "x", "r", "z", 1, 1, 1, 10000)

  function Marked(s: State): State {
    s.(peers := Peers("s", map["r" := PeerStream("z", 1, 1, 1, false)]))
  }

  /** `s` with one more message queued for Redis. */
  function Queueing(s: State, msg: RedisMsg, age: int): State {
    var pub := RedisPub(s.redis.next, msg, NOON, NOON + age);
    s.(redis := s.redis.(next := s.redis.next + 1, queue := s.redis.queue + [pub]),
        log := s.log.(queued := s.log.queued + [pub]))
  }

  function Renewed(s: State, peers: seq<Id>): State {
    var c := Lease(Renew, "x", 1, peers);
    Queueing(s.(consent := s.consent.(grant := Some(c), lastAuthority := Some(c)), peers := Peers("s", map[])),
             ControlMsg(c), LEASE_DURATION)
  }

  function Heard(): State {
    Queueing(Marked(Granted(NOON, ["r"])), PeerMsg(HEARD), SECOND)
  }

  function Unlisted(): State {
    Renewed(Heard(), [])
  }

  function Relisted(): State {
    Renewed(Unlisted(), ["r"])
  }

  function HeardAgain(): State {
    Queueing(Marked(Relisted()), PeerMsg(HEARD), SECOND)
  }

  lemma HeardStep()
    ensures OnPeer(Granted(NOON, ["r"]), ENV, HEARD) == Heard()
  {
  }

  lemma UnlistedStep()
    ensures OnControl(Heard(), ENV, Lease(Renew, "x", 1, []), None) == Unlisted()
  {
    assert SetReplayScope(Heard().peers, Lease(Renew, "x", 1, [])) == Peers("s", map[]);
  }

  lemma RelistedStep()
    ensures OnControl(Unlisted(), ENV, Lease(Renew, "x", 1, ["r"]), None) == Relisted()
  {
    assert SetReplayScope(Unlisted().peers, Lease(Renew, "x", 1, ["r"])) == Peers("s", map[]);
  }

  lemma HeardAgainStep()
    ensures OnPeer(Relisted(), ENV, HEARD) == HeardAgain()
  {
  }

  lemma HeardIsReachable()
    ensures Reachable(Heard())
  {
    GrantedIsReachable(ANY, NOON, ["r"]);
    Step(Granted(NOON, ["r"]), Input(ENV, PeerIn(HEARD)));
    HeardStep();
  }

  lemma RelistedIsReachable()
    ensures Reachable(Relisted())
  {
    HeardIsReachable();
    Step(Heard(), Input(ENV, ControlIn(Lease(Renew, "x", 1, []), None)));
    UnlistedStep();
    Step(Unlisted(), Input(ENV, ControlIn(Lease(Renew, "x", 1, ["r"]), None)));
    RelistedStep();
  }

  lemma HeardAgainIsReachable()
    ensures Reachable(HeardAgain())
  {
    RelistedIsReachable();
    Step(Relisted(), Input(ENV, PeerIn(HEARD)));
    HeardAgainStep();
  }

  lemma FinalIgnoresEgress(s: State, t: State, p: RedisPub)
    requires t == s.(redis := t.redis, log := t.log)
    ensures FinalRedis(t, ENV, p) == FinalRedis(s, ENV, p)
  {
  }

  /** `s` after its first `n` queued messages were taken and `published` came of them. */
  function Drained(s: State, n: nat, published: seq<Published>): State
    requires n <= |s.redis.queue|
  {
    s.(redis := s.redis.(queue := s.redis.queue[n..]), log := s.log.(published := published))
  }

  /** What is published when the queued message `n` is delivered. */
  function Delivered(s: State, n: nat): seq<Published>
    requires n < |s.redis.queue|
  {
    var p := s.redis.queue[n];
    var final := FinalRedis(s, ENV, p);
    if NOON < p.expiresAt && final.Some? then [Published(final.value, p.serial)] else []
  }

  lemma DeliverStep(s: State)
    requires s.redis.inflight.None? && s.redis.queue != [] && s.redis.queue[0].expiresAt != 0
    ensures OnRedisDeliver(OnRedisTake(s), ENV) == Drained(s, 1, s.log.published + Delivered(s, 0))
  {
    FinalIgnoresEgress(s, OnRedisTake(s), s.redis.queue[0]);
  }

  lemma DeliverReaches(s: State)
    requires Reachable(s) && s.redis.inflight.None? && s.redis.queue != [] && s.redis.queue[0].expiresAt != 0
    ensures Reachable(Drained(s, 1, s.log.published + Delivered(s, 0)))
  {
    Step(s, Input(ENV, RedisTake));
    Step(OnRedisTake(s), Input(ENV, RedisDeliver));
    DeliverStep(s);
  }

  lemma DrainStep(s: State, n: nat, published: seq<Published>)
    requires n < |s.redis.queue| && s.redis.inflight.None? && s.redis.queue[n].expiresAt != 0
    requires Reachable(Drained(s, n, published))
    ensures Reachable(Drained(s, n + 1, published + Delivered(s, n)))
  {
    var t := Drained(s, n, published);
    DeliverReaches(t);
    FinalIgnoresEgress(s, t, s.redis.queue[n]);
    assert Delivered(t, 0) == Delivered(s, n);
    assert t.redis.queue[1..] == s.redis.queue[n + 1..];
  }

  /** What has been published once the first `n` queued messages were delivered. */
  function AllDelivered(s: State, n: nat): seq<Published>
    requires n <= |s.redis.queue|
  {
    if n == 0 then s.log.published else AllDelivered(s, n - 1) + Delivered(s, n - 1)
  }

  lemma {:induction false} DrainAll(s: State, n: nat)
    requires Reachable(s) && s.redis.inflight.None? && n <= |s.redis.queue|
    requires forall k | 0 <= k < n :: s.redis.queue[k].expiresAt != 0
    ensures Reachable(Drained(s, n, AllDelivered(s, n)))
  {
    if n == 0 {
      assert s.redis.queue[0..] == s.redis.queue;
      assert Drained(s, 0, s.log.published) == s;
    } else {
      DrainAll(s, n - 1);
      DrainStep(s, n - 1, AllDelivered(s, n - 1));
    }
  }

  lemma WhatIsDelivered(s: State)
    requires s == HeardAgain()
    ensures |s.redis.queue| == 6 && s.redis.inflight.None? && s.log.published == []
    ensures forall k | 0 <= k < 6 :: s.redis.queue[k].expiresAt != 0
    ensures Delivered(s, 0) == [] && |Delivered(s, 1)| == |Delivered(s, 3)| == |Delivered(s, 4)| == 1
    ensures Delivered(s, 2) == [Published(PeerMsg(HEARD), 2)] && Delivered(s, 5) == [Published(PeerMsg(HEARD), 5)]
  {
  }

  lemma PublishedInTurn(s: State)
    requires |s.redis.queue| == 6 && s.log.published == []
    requires Delivered(s, 0) == [] && |Delivered(s, 1)| == |Delivered(s, 3)| == |Delivered(s, 4)| == 1
    requires |Delivered(s, 2)| == 1 && |Delivered(s, 5)| == 1
    ensures |AllDelivered(s, 6)| == 5 && AllDelivered(s, 6)[1] == Delivered(s, 2)[0]
            && AllDelivered(s, 6)[4] == Delivered(s, 5)[0]
  {
    assert AllDelivered(s, 1) == [];
    assert AllDelivered(s, 2) == Delivered(s, 1);
    assert AllDelivered(s, 3) == Delivered(s, 1) + Delivered(s, 2);
    assert AllDelivered(s, 4) == AllDelivered(s, 3) + Delivered(s, 3);
    assert AllDelivered(s, 5) == AllDelivered(s, 4) + Delivered(s, 4);
  }

  /** The dashboard is sent the very same sample of a peer twice, queued under different numbers. */
  lemma PublishedTwice() returns (s: State, a: nat, b: nat)
    ensures Reachable(s) && a < b < |s.log.published|
    ensures s.log.published[a] == Published(PeerMsg(HEARD), 2) && s.log.published[b] == Published(PeerMsg(HEARD), 5)
  {
    var h := HeardAgain();
    HeardAgainIsReachable();
    WhatIsDelivered(h);
    DrainAll(h, 6);
    PublishedInTurn(h);
    s, a, b := Drained(h, 6, AllDelivered(h, 6)), 1, 4;
  }

  // ---- a buffer beyond its limit ----

  /** With a limit of one, three added snapshots are all kept. */
  lemma ThreeAreKept(a: SnapshotBuffer.Item, b: SnapshotBuffer.Item, c: SnapshotBuffer.Item)
    ensures SnapshotBuffer.AddAll([], [a, b, c], 1) == [a, b, c]
  {
    SnapshotBuffer.FewAreAllKept([], [a, b, c], 1);
    assert [] + [a, b, c] == [a, b, c];
  }
}
