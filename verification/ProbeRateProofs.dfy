/**
 The rate limit on journal probes, over every run with a clock that never goes back: no ten
 seconds hold more than ten probes, also across reconnects and failures.
 */
module ProbeRateProofs {
  import opened Basics
  import opened Messages
  import opened AdapterModel
  import opened AdapterRuns

  /** When the probes among the queued publications were queued. */
  function ProbeLog(q: seq<RedisPub>): seq<Time> {
    if q == [] then []
    else
      var last := q[|q| - 1];
      ProbeLog(q[..|q| - 1]) + (if last.msg.ProbeMsg? then [last.queuedAt] else [])
  }

  lemma LogAppend(q: seq<RedisPub>, p: RedisPub)
    ensures ProbeLog(q + [p]) == ProbeLog(q) + (if p.msg.ProbeMsg? then [p.queuedAt] else [])
  {
    assert (q + [p])[..|q|] == q;
  }

  ghost predicate Sorted(ts: seq<Time>) {
    forall a, b | 0 <= a <= b < |ts| :: ts[a] <= ts[b]
  }

  /** Entries that are eleven apart are more than ten seconds apart. */
  ghost predicate Spaced(ts: seq<Time>) {
    forall a | 0 <= a && a + 10 < |ts| :: ts[a + 10] - ts[a] > ATTEMPT_LIFETIME
  }

  lemma SpacedApart(ts: seq<Time>, a: nat, b: nat)
    requires Sorted(ts) && Spaced(ts) && a <= b < |ts|
    ensures b >= a + 10 ==> ts[b] - ts[a] > ATTEMPT_LIFETIME
  {
    if b >= a + 10 {
      assert ts[a + 10] <= ts[b];
    }
  }

  /** The remembered times are the tail of the log; what was forgotten is older than ten seconds. */
  ghost predicate Window(times: seq<Time>, log: seq<Time>, now: Time) {
    && Sorted(log) && Spaced(log) && |times| <= |log| && times == log[|log| - |times|..]
    && (forall a | 0 <= a < |log| :: log[a] <= now)
    && (forall a | 0 <= a < |log| - |times| :: log[a] < now - ATTEMPT_LIFETIME)
  }

  ghost predicate RateInv(s: State, now: Time) {
    Window(s.journal.probeTimes, ProbeLog(s.log.queued), now)
  }

  lemma {:induction false} SinceIsTail(ts: seq<Time>, cutoff: Time)
    requires Sorted(ts)
    ensures var kept := Since(ts, cutoff);
            |kept| <= |ts| && kept == ts[|ts| - |kept|..] && forall a | 0 <= a < |ts| - |kept| :: ts[a] < cutoff
  {
    if ts != [] {
      SinceIsTail(ts[1..], cutoff);
      if ts[0] >= cutoff {
        assert Since(ts[1..], cutoff) == ts[1..] by {
          assert forall a | 0 <= a < |ts[1..]| :: ts[1..][a] == ts[a + 1] && ts[a + 1] >= cutoff;
        }
      }
    }
  }

  lemma ForgetKeepsWindow(times: seq<Time>, log: seq<Time>, now: Time)
    requires Window(times, log, now)
    ensures Window(Since(times, now - ATTEMPT_LIFETIME), log, now)
  {
    SinceIsTail(times, now - ATTEMPT_LIFETIME);
  }

  lemma AppendKeepsWindow(times: seq<Time>, log: seq<Time>, now: Time)
    requires Window(times, log, now) && |times| < 10
    ensures Window(times + [now], log + [now], now)
  {
    var log' := log + [now];
    forall a | 0 <= a && a + 10 < |log'|
      ensures log'[a + 10] - log'[a] > ATTEMPT_LIFETIME
    {
      if a + 10 < |log| {
        assert log[a + 10] - log[a] > ATTEMPT_LIFETIME;
      }
    }
  }

  lemma IssueKeepsRate(s: State, env: Env, purpose: Purpose, query: Option<PreparedQuery>, id: Option<Id>)
    requires RateInv(s, env.now)
    ensures RateInv(IssueProbe(s, env, purpose, query, id), env.now)
  {
    ForgetKeepsWindow(s.journal.probeTimes, ProbeLog(s.log.queued), env.now);
    if IssuesProbe(s, env, id) {
      AppendKeepsWindow(Since(s.journal.probeTimes, env.now - ATTEMPT_LIFETIME), ProbeLog(s.log.queued), env.now);
      LogAppend(s.log.queued, IssueProbe(s, env, purpose, query, id).log.queued[|s.log.queued|]);
    }
  }

  /** Only messages other than probes are queued. */
  ghost predicate NoProbeQueued(s: State, t: State) {
    t.journal.probeTimes == s.journal.probeTimes && ProbeLog(t.log.queued) == ProbeLog(s.log.queued)
  }

  lemma QueueIsNoProbe(s: State, env: Env, msg: RedisMsg, maxAge: int)
    requires !msg.ProbeMsg?
    ensures NoProbeQueued(s, QueueRedis(s, env, msg, maxAge))
  {
    LogAppend(s.log.queued, QueueRedis(s, env, msg, maxAge).log.queued[|s.log.queued|]);
  }

  lemma SameKeepsRate(s: State, t: State, now: Time)
    requires RateInv(s, now) && NoProbeQueued(s, t)
    ensures RateInv(t, now)
  {
  }

  lemma OfferIsNoProbe(s: State, env: Env, c: Control)
    ensures NoProbeQueued(s, QueueRedis(MaybeOffer(s, env, c), env, ControlMsg(c), ATTEMPT_LIFETIME))
  {
    var m := MaybeOffer(s, env, c);
    if m.log.queued != s.log.queued {
      LogAppend(s.log.queued, m.log.queued[|s.log.queued|]);
    }
    QueueIsNoProbe(m, env, ControlMsg(c), ATTEMPT_LIFETIME);
  }

  function Forwarded(s: State, env: Env, c: Control): State
    requires c.stopResult.Some? && ForwardsReply(s, env, c)
  {
    ForwardResult(MarkConsumed(s, c.challenge), env, c, s.journal.attempts[c.challenge])
  }

  lemma ReplyQueues(s: State, env: Env, c: Control, id: Option<Id>)
    requires c.stopResult.Some?
    ensures
      var t := OnStopStatus(s, env, c, id);
      if ForwardsReply(s, env, c) then
        var s1 := Forwarded(s, env, c);
        && NoProbeQueued(s, s1)
        && (NoProbeQueued(s1, t) || NoProbeQueued(IssueProbe(s1, env, ApplyConfirmation, s1.journal.query, id), t))
      else NoProbeQueued(s, t)
  {
    if ForwardsReply(s, env, c) {
      var s1 := Forwarded(s, env, c);
      LogAppend(s.log.queued, s1.log.queued[|s.log.queued|]);
    }
  }

  lemma ReplyKeepsRate(s: State, env: Env, c: Control, id: Option<Id>)
    requires RateInv(s, env.now) && c.stopResult.Some?
    ensures RateInv(OnStopStatus(s, env, c, id), env.now)
  {
    ReplyQueues(s, env, c, id);
    if ForwardsReply(s, env, c) {
      var s1 := Forwarded(s, env, c);
      IssueKeepsRate(s1, env, ApplyConfirmation, s1.journal.query, id);
    }
  }

  lemma LeaseControlQueues(s: State, env: Env, c: Control, id: Option<Id>)
    requires ValidControl(c) && !c.action.Status?
    ensures NoProbeQueued(s, OnControl(s, env, c, id))
  {
    var t := OnControl(s, env, c, id);
    if t.log.queued != s.log.queued {
      LogAppend(s.log.queued, t.log.queued[|s.log.queued|]);
    }
  }

  lemma InhibitBySettingsKeepsRate(s: State, env: Env, id: Option<Id>)
    requires RateInv(s, env.now)
    ensures RateInv(InhibitBySettings(s, env, id), env.now)
  {
    StartOverKeepsRate(s, env.now);
    IssueKeepsRate(StartOver(s), env, Reconcile, None, id);
  }

  lemma StartOverKeepsRate(s: State, now: Time)
    requires RateInv(s, now)
    ensures RateInv(StartOver(s), now)
  {
    SameKeepsRate(s, StartOver(s), now);
  }

  lemma RefreshKeepsRate(s: State, env: Env, blocked: bool, hello: Option<Id>, first: Option<Id>, second: Option<Id>)
    requires RateInv(s, env.now)
    ensures RateInv(OnRefresh(s, env, blocked, hello, first, second), env.now)
  {
    var s1 := s.(consent := s.consent.(blocked := blocked, settingsReady := true));
    SameKeepsRate(s, PublishHello(s1, env, hello), env.now);
    IssueKeepsRate(PublishHello(s1, env, hello), env, Reconcile, None, first);
    var s2 := if !s.consent.settingsReady then AnnounceReady(s1, env, hello, first) else s1;
    assert RateInv(s2, env.now);
    InhibitBySettingsKeepsRate(s2, env, second);
  }

  lemma ConnectKeepsRate(s: State, env: Env, client: nat, attempt: nat, connection: Option<Id>, hello: Option<Id>,
      id: Option<Id>)
    requires RateInv(s, env.now)
    ensures RateInv(OnConnectFinish(s, env, client, attempt, connection, hello, id), env.now)
  {
    if connection.Some? {
      var s1 := s.(link := s.link.(connecting := false));
      IssueKeepsRate(PublishHello(ResetConnection(s1, Some(client), connection.value), env, hello), env, Reconcile,
          None, id);
    }
  }

  lemma SnapshotKeepsRate(s: State, env: Env, st: LocalStop, evict: Id, id: Option<Id>)
    requires RateInv(s, env.now)
    ensures RateInv(OnSnapshot(s, env, st, evict, id), env.now)
  {
    if !TakesSnapshot(s, env, st) {
      var b := if VetoedBySnapshot(s, env, st) then Inhibit(s) else s;
      IssueKeepsRate(b, env, Reconcile, None, id);
      IssueKeepsRate(ConsumeProbe(b, st, evict), env, Reconcile, None, id);
    }
  }

  lemma PeersQueueNoProbe(s: State, env: Env, p: PeerPosition, st: PeerStatus)
    ensures NoProbeQueued(s, OnPeer(s, env, p)) && NoProbeQueued(s, OnPeerStatus(s, env, st))
  {
    forall t | t == OnPeer(s, env, p) || t == OnPeerStatus(s, env, st)
      ensures NoProbeQueued(s, t)
    {
      if t.log.queued != s.log.queued {
        LogAppend(s.log.queued, t.log.queued[|s.log.queued|]);
      }
    }
  }

  lemma QuietQueues(s: State, i: Input)
    requires Enabled(s, i) && !i.event.Refresh? && !i.event.ConnectFinish? && !i.event.SnapshotIn?
             && !i.event.ControlIn?
    requires !i.event.RecoveryDone? && !i.event.PeerIn? && !i.event.PeerStatusIn?
    ensures Next(s, i).journal.probeTimes == s.journal.probeTimes && Next(s, i).log.queued == s.log.queued
  {
  }

  lemma ControlKeepsRate(s: State, env: Env, c: Control, id: Option<Id>)
    requires RateInv(s, env.now) && ValidControl(c)
    ensures RateInv(OnControl(s, env, c, id), env.now)
  {
    if !Linked(s, env) || c.nonce != s.link.connection {
    } else if c.action.Status? && c.stopResult.Some? {
      ReplyKeepsRate(s, env, c, id);
    } else if c.action.Status? {
      OfferIsNoProbe(s, env, c);
    } else {
      LeaseControlQueues(s, env, c, id);
    }
  }

  lemma NextKeepsRate(s: State, i: Input)
    requires Enabled(s, i) && RateInv(s, i.env.now)
    ensures RateInv(Next(s, i), i.env.now)
  {
    match i.event
    case Refresh(blocked, hello, first, second) => RefreshKeepsRate(s, i.env, blocked, hello, first, second);
    case ConnectFinish(client, attempt, connection, hello, id) =>
      ConnectKeepsRate(s, i.env, client, attempt, connection, hello, id);
    case SnapshotIn(st, evict, id) => SnapshotKeepsRate(s, i.env, st, evict, id);
    case ControlIn(c, id) => ControlKeepsRate(s, i.env, c, id);
    case RecoveryDone(id) => IssueKeepsRate(s.(phase := Serving), i.env, Reconcile, None, id);
    case PeerIn(p) => PeersQueueNoProbe(s, i.env, p, PeerStatus("", 0, 0, "", "", "", 0, PeerNoFix));
    case PeerStatusIn(st) => PeersQueueNoProbe(s, i.env, PeerPosition("", 0, 0, "", "", "", 0, 0, 0, 0), st);
    case _ => QuietQueues(s, i);
  }

  lemma {:induction false} RunKeepsRate(ss: seq<State>, es: seq<Input>, j: nat)
    requires IsRun(ss, es) && ClockNeverGoesBack(es) && 0 < j < |ss|
    ensures RateInv(ss[j], es[j - 1].env.now)
  {
    if j > 1 {
      RunKeepsRate(ss, es, j - 1);
    }
    assert StepAt(ss, es, j - 1);
    NextKeepsRate(ss[j - 1], es[j - 1]);
  }

  /** No window of ten seconds holds more than ten probes, in the whole life of the adapter. */
  lemma TenProbesPerTenSeconds(ss: seq<State>, es: seq<Input>, j: nat, a: nat, b: nat)
    requires IsRun(ss, es) && ClockNeverGoesBack(es) && j < |ss|
    requires a <= b < |ProbeLog(ss[j].log.queued)|
    requires ProbeLog(ss[j].log.queued)[b] - ProbeLog(ss[j].log.queued)[a] <= ATTEMPT_LIFETIME
    ensures b - a + 1 <= 10
  {
    if j > 0 {
      RunKeepsRate(ss, es, j);
      SpacedApart(ProbeLog(ss[j].log.queued), a, b);
    }
  }
}
