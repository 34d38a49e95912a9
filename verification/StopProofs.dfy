/**
 The stop protocol over every run: probes, queries, replies and applies of the stop journal.
 */
module StopProofs {
  import opened Basics
  import opened Messages
  import opened AdapterModel
  import opened AdapterRuns
  import opened ConsentProofs

  // ---- what one step does to probes, attempts and the pending query ----

  /** The reply at this step is forwarded to the dashboard. */
  predicate ForwardsAt(s: State, i: Input) {
    && i.event.ControlIn? && i.event.control.action.Status? && i.event.control.stopResult.Some?
    && Linked(s, i.env) && i.event.control.nonce == s.link.connection
    && ForwardsReply(s, i.env, i.event.control)
  }

  /** ... and is the `not_found` that asks for the confirmation probe. */
  predicate WantsAt(s: State, i: Input) {
    ForwardsAt(s, i) && WantsConfirmation(s, i.env, i.event.control)
  }

  predicate SameLine(s: State, t: State) {
    t.journal.epoch == s.journal.epoch && t.link.connection == s.link.connection
  }

  predicate IssuedNow(t: State, now: Time, p: Probe) {
    && p.connection == t.link.connection && p.epoch == t.journal.epoch && p.issuedAt == now
    && p.deadline <= now + ATTEMPT_LIFETIME
  }

  predicate ConfirmationOf(p: Probe, q: PreparedQuery) {
    && p.purpose.ApplyConfirmation? && p.op == q.op && p.revision == q.revision && p.fence == Some(q.fence)
    && p.deadline <= q.deadline
  }

  predicate OneProbe(s: State) {
    forall a, b | a in s.journal.probes && b in s.journal.probes :: a == b
  }

  /** Nothing but reconciliation probes is new; what is kept belongs to the same connection and epoch. */
  predicate PlainMove(s: State, t: State, now: Time, ids: set<Id>) {
    && t.log.stops == s.log.stops
    && (OneProbe(s) ==> OneProbe(t))
    && (forall ch | ch in t.journal.probes ::
          || (ch in s.journal.probes && t.journal.probes[ch] == s.journal.probes[ch] && SameLine(s, t))
          || (ch in ids && var p := t.journal.probes[ch];
              p.challenge == ch && IssuedNow(t, now, p) && p.purpose.Reconcile?))
    && (forall ch | ch in t.journal.attempts ::
          ch in s.journal.attempts && t.journal.attempts[ch] == s.journal.attempts[ch] && SameLine(s, t))
    && (t.journal.query.Some? ==> t.journal.query == s.journal.query && SameLine(s, t))
  }

  /** The attempt that the taken snapshot `st` sends in answer to probe `p`. */
  predicate SentFor(s: State, env: Env, st: LocalStop, p: Probe, a: Attempt) {
    && st.op == Some(a.op) && st.revision == a.revision && st.expected == a.fence
    && a.challenge == st.challenge && a.connection == s.link.connection && a.epoch == s.journal.epoch
    && a.startedAt == env.now && !a.consumed
    && (if p.purpose.ApplyConfirmation?
        then a.mode.Apply? && s.journal.query.Some? && st.phase.Prepared? && env.now < p.deadline &&
             var q := s.journal.query.value;
             q.op == a.op && q.revision == a.revision && a.fence == Some(q.fence) && env.now < q.deadline
        else a.mode.Query? && a.deadline == StopDeadline(env, p.deadline))
  }

  /** At most one stop is sent, for the snapshot's own operation. */
  predicate SendsFor(a: State, t: State, env: Env, st: LocalStop, p: Probe) {
    || (t.journal.attempts == a.journal.attempts && t.log.stops == a.log.stops)
    || (&& st.challenge in t.journal.attempts
        && var n := t.journal.attempts[st.challenge];
           && SentFor(a, env, st, p, n) && t.journal.attempts == a.journal.attempts[st.challenge := n]
           && (forall ch | ch in a.journal.attempts :: !AttemptLive(a.journal.attempts[ch], env.now))
           && a.link.client.Some?
           && t.log.stops == a.log.stops + [Live(a.link.client.value, a.link.connection,
                                                 StopPub(n.op, n.fence, st.challenge, n.mode), n.deadline)])
  }

  /** A taken snapshot uses up its probe and sends at most one stop, the one it authorizes. */
  predicate TakeMove(s: State, t: State, env: Env, st: LocalStop)
    requires st.challenge in s.journal.probes
  {
    var p := s.journal.probes[st.challenge];
    && SameLine(s, t) && t.journal.probes == s.journal.probes - {st.challenge}
    && SendsFor(s, t, env, st, p)
    && (t.journal.query.Some? && t.journal.query != s.journal.query ==>
          && !p.purpose.ApplyConfirmation? && st.phase.Prepared? && st.op.Some? && st.expected.Some?
          && t.journal.query.value == PreparedQuery(st.op.value, st.revision, st.expected.value, s.link.connection,
                                                    s.journal.epoch, p.deadline, st.challenge))
  }

  /** A forwarded reply uses up its attempt; a `not_found` to the pending query issues the confirmation. */
  predicate ReplyMove(s: State, t: State, env: Env, c: Control, ids: set<Id>)
    requires c.challenge in s.journal.attempts
  {
    && SameLine(s, t) && t.log.stops == s.log.stops && (OneProbe(s) ==> OneProbe(t))
    && t.journal.attempts == s.journal.attempts[c.challenge := s.journal.attempts[c.challenge].(consumed := true)]
    && (t.journal.query.None? || t.journal.query == s.journal.query)
    && (forall ch | ch in t.journal.probes ::
          || (ch in s.journal.probes && t.journal.probes[ch] == s.journal.probes[ch])
          || (&& ch in ids && WantsConfirmation(s, env, c) && t.journal.query == s.journal.query
              && var p := t.journal.probes[ch];
                 p.challenge == ch && IssuedNow(t, env.now, p) && ConfirmationOf(p, s.journal.query.value)))
  }

  /** What each kind of step does to probes, attempts and the pending query. */
  predicate JournalEffect(s: State, i: Input, t: State) {
    match i.event
    case SnapshotIn(st, _, id) =>
      if TakesSnapshot(s, i.env, st) then TakeMove(s, t, i.env, st) else PlainMove(s, t, i.env.now, Drawn1(id))
    case ControlIn(c, id) =>
      if ForwardsAt(s, i) then ReplyMove(s, t, i.env, c, Drawn1(id)) else PlainMove(s, t, i.env.now, Drawn1(id))
    case _ => PlainMove(s, t, i.env.now, Drawn(i.event))
  }

  lemma IssueProbeOrigin(s: State, env: Env, purpose: Purpose, query: Option<PreparedQuery>, id: Option<Id>)
    ensures
      var r := IssueProbe(s, env, purpose, query, id);
      && (OneProbe(s) ==> OneProbe(r))
      && forall ch | ch in r.journal.probes ::
           || (ch in s.journal.probes && r.journal.probes[ch] == s.journal.probes[ch])
           || (id == Some(ch) && r.journal.probes[ch] == NewProbe(s, env, purpose, query, ch))
  {
  }

  lemma InhibitBySettingsJournal(s: State, m: State, env: Env, id: Option<Id>)
    requires m.log.stops == s.log.stops
    ensures PlainMove(s, InhibitBySettings(m, env, id), env.now, Drawn1(id))
  {
    IssueProbeOrigin(StartOver(m), env, Reconcile, None, id);
  }

  lemma AnnounceReadyJournal(s: State, env: Env, hello: Option<Id>, id: Option<Id>)
    ensures PlainMove(s, AnnounceReady(s, env, hello, id), env.now, Drawn1(id))
  {
    IssueProbeOrigin(PublishHello(s, env, hello), env, Reconcile, None, id);
  }

  lemma RefreshJournal(s: State, env: Env, blocked: bool, hello: Option<Id>, first: Option<Id>, second: Option<Id>)
    ensures PlainMove(s, OnRefresh(s, env, blocked, hello, first, second), env.now, Drawn1(first) + Drawn1(second))
  {
    var s1 := s.(consent := s.consent.(blocked := blocked, settingsReady := true));
    AnnounceReadyJournal(s1, env, hello, first);
    var s2 := if !s.consent.settingsReady then AnnounceReady(s1, env, hello, first) else s1;
    if blocked || s.consent.blocked {
      InhibitBySettingsJournal(s, s2, env, second);
    }
  }

  lemma ConnectJournal(s: State, env: Env, client: nat, attempt: nat, connection: Option<Id>, hello: Option<Id>,
      id: Option<Id>)
    ensures PlainMove(s, OnConnectFinish(s, env, client, attempt, connection, hello, id), env.now, Drawn1(id))
  {
    if connection.Some? {
      var s1 := s.(link := s.link.(connecting := false));
      var s2 := PublishHello(ResetConnection(s1, Some(client), connection.value), env, hello);
      IssueProbeOrigin(s2, env, Reconcile, None, id);
    }
  }

  lemma IgnoredSnapshotJournal(s: State, env: Env, st: LocalStop, evict: Id, id: Option<Id>)
    requires !TakesSnapshot(s, env, st)
    ensures PlainMove(s, OnSnapshot(s, env, st, evict, id), env.now, Drawn1(id))
  {
    if st.challenge in s.journal.used {
      RepeatedSnapshotJournal(s, env, st, evict, id);
    } else if !AnswersProbe(s, env, st.challenge) {
      var b := if st.blocked || !st.phase.Idle? then Inhibit(s) else s;
      InhibitJournal(s, env.now);
      SameIsPlain(s, s, env.now, {});
      AskJournal(s, b, env, id);
    } else {
      InhibitJournal(s, env.now);
      AskJournal(s, ConsumeProbe(Inhibit(s), st, evict), env, id);
    }
  }

  lemma RepeatedSnapshotJournal(s: State, env: Env, st: LocalStop, evict: Id, id: Option<Id>)
    requires st.challenge in s.journal.used
    ensures PlainMove(s, OnSnapshot(s, env, st, evict, id), env.now, Drawn1(id))
  {
    if s.journal.used[st.challenge] != st {
      InhibitJournal(s, env.now);
      AskJournal(s, Inhibit(s), env, id);
    } else {
      SameIsPlain(s, s, env.now, Drawn1(id));
    }
  }

  lemma InhibitJournal(s: State, now: Time)
    ensures PlainMove(s, Inhibit(s), now, {}) && Inhibit(s).journal.probes == map[]
  {
  }

  lemma AskJournal(s: State, b: State, env: Env, id: Option<Id>)
    requires PlainMove(s, b, env.now, {})
    ensures PlainMove(s, RequestReconciliation(b, env, id), env.now, Drawn1(id))
  {
    IssueProbeOrigin(b, env, Reconcile, None, id);
  }

  lemma ConfirmJournal(a: State, env: Env, st: LocalStop, p: Probe)
    requires p.challenge == st.challenge && p.purpose.ApplyConfirmation?
    ensures SendsFor(a, ConfirmApply(a, env, st, p), env, st, p)
  {
    if Confirms(a, env, st, p) && CanSendStop(a, env, st.op.value, st.revision, st.expected, Apply) {
      ApplyJournal(a, env, st, p);
    }
  }

  lemma ApplyJournal(a: State, env: Env, st: LocalStop, p: Probe)
    requires p.challenge == st.challenge && Confirms(a, env, st, p)
    requires CanSendStop(a, env, st.op.value, st.revision, st.expected, Apply)
    ensures SendsFor(a, ConfirmApply(a, env, st, p), env, st, p)
  {
    var q := a.journal.query.value;
    var t := ConfirmApply(a, env, st, p);
    assert t.journal.attempts == SendStop(a, env, q.op, q.revision, Some(q.fence), p.challenge, Apply,
        q.deadline).journal.attempts;
  }

  lemma QueryJournal(a: State, env: Env, st: LocalStop, p: Probe)
    requires !p.purpose.ApplyConfirmation?
    ensures SendsFor(a, ActOnSnapshot(a, env, st, p), env, st, p)
  {
    match st.phase
    case Idle =>
    case Preparing =>
    case Prepared =>
    case Uncertain =>
    case Confirmed =>
  }

  lemma TakenSnapshotJournal(s: State, env: Env, st: LocalStop, evict: Id, id: Option<Id>)
    requires TakesSnapshot(s, env, st) && s.journal.probes[st.challenge].challenge == st.challenge
    ensures TakeMove(s, OnSnapshot(s, env, st, evict, id), env, st)
  {
    var a := AdoptSnapshot(s, st, evict);
    var p := s.journal.probes[st.challenge];
    if p.purpose.ApplyConfirmation? {
      ConfirmJournal(a, env, st, p);
    } else {
      QueryJournal(a, env, st, p);
    }
    PendingJournal(a, env, st, p);
    SendsAlike(a, s, ActOnSnapshot(a, env, st, p), env, st, p);
  }

  /** A taken snapshot leaves the pending query alone, drops it, or replaces it by its own. */
  lemma PendingJournal(a: State, env: Env, st: LocalStop, p: Probe)
    ensures var t := ActOnSnapshot(a, env, st, p);
            t.journal.query.Some? && t.journal.query != a.journal.query ==>
              && !p.purpose.ApplyConfirmation? && st.phase.Prepared? && st.op.Some? && st.expected.Some?
              && t.journal.query.value == PreparedQuery(st.op.value, st.revision, st.expected.value, a.link.connection,
                                                        a.journal.epoch, p.deadline, st.challenge)
  {
  }

  lemma SendsAlike(a: State, s: State, t: State, env: Env, st: LocalStop, p: Probe)
    requires SendsFor(a, t, env, st, p)
    requires a.journal.attempts == s.journal.attempts && a.log.stops == s.log.stops && a.link == s.link
    requires a.journal.epoch == s.journal.epoch && a.journal.query == s.journal.query
    ensures SendsFor(s, t, env, st, p)
  {
  }

  lemma ReplyJournal(s: State, env: Env, c: Control, id: Option<Id>)
    requires c.stopResult.Some? && ForwardsReply(s, env, c)
    ensures ReplyMove(s, OnStopStatus(s, env, c, id), env, c, Drawn1(id))
  {
    if WantsConfirmation(s, env, c) {
      ConfirmationJournal(s, env, c, id);
    }
  }

  lemma ConfirmationJournal(s: State, env: Env, c: Control, id: Option<Id>)
    requires c.stopResult.Some? && WantsConfirmation(s, env, c)
    ensures ReplyMove(s, OnStopStatus(s, env, c, id), env, c, Drawn1(id))
  {
    var s1 := ForwardResult(MarkConsumed(s, c.challenge), env, c, s.journal.attempts[c.challenge]);
    IssueProbeOrigin(s1, env, ApplyConfirmation, s1.journal.query, id);
  }

  lemma ControlJournal(s: State, env: Env, c: Control, id: Option<Id>)
    requires ValidControl(c) && !ForwardsAt(s, Input(env, ControlIn(c, id)))
    ensures PlainMove(s, OnControl(s, env, c, id), env.now, Drawn1(id))
  {
  }

  lemma RecoveryJournal(s: State, env: Env, id: Option<Id>)
    ensures PlainMove(s, OnRecoveryDone(s, env, id), env.now, Drawn1(id))
  {
    IssueProbeOrigin(s.(phase := Serving), env, Reconcile, None, id);
  }

  lemma TickJournal(s: State, env: Env)
    ensures PlainMove(s, OnTick(s, env), env.now, {})
  {
  }

  lemma DisconnectJournal(s: State, env: Env, client: nat)
    ensures PlainMove(s, OnDisconnected(s, client), env.now, {})
    ensures PlainMove(s, OnFailClosed(s), env.now, {})
  {
  }

  lemma SameIsPlain(s: State, t: State, now: Time, ids: set<Id>)
    requires t.journal == s.journal && t.link.connection == s.link.connection && t.log.stops == s.log.stops
    ensures PlainMove(s, t, now, ids)
  {
  }

  predicate Keyed(s: State) {
    forall ch | ch in s.journal.probes :: s.journal.probes[ch].challenge == ch
  }

  lemma SnapshotJournal(s: State, env: Env, st: LocalStop, evict: Id, id: Option<Id>)
    requires Keyed(s)
    ensures JournalEffect(s, Input(env, SnapshotIn(st, evict, id)), OnSnapshot(s, env, st, evict, id))
  {
    if TakesSnapshot(s, env, st) {
      TakenSnapshotJournal(s, env, st, evict, id);
    } else {
      IgnoredSnapshotJournal(s, env, st, evict, id);
    }
  }

  lemma ControlOrReplyJournal(s: State, env: Env, c: Control, id: Option<Id>)
    requires ValidControl(c)
    ensures JournalEffect(s, Input(env, ControlIn(c, id)), OnControl(s, env, c, id))
  {
    if ForwardsAt(s, Input(env, ControlIn(c, id))) {
      ReplyJournal(s, env, c, id);
    } else {
      ControlJournal(s, env, c, id);
    }
  }

  lemma NextJournal(s: State, i: Input)
    requires Enabled(s, i) && Keyed(s)
    ensures JournalEffect(s, i, Next(s, i))
  {
    match i.event
    case Refresh(blocked, hello, first, second) => RefreshJournal(s, i.env, blocked, hello, first, second);
    case ConnectFinish(client, attempt, connection, hello, id) =>
      ConnectJournal(s, i.env, client, attempt, connection, hello, id);
    case SnapshotIn(st, evict, id) => SnapshotJournal(s, i.env, st, evict, id);
    case ControlIn(c, id) => ControlOrReplyJournal(s, i.env, c, id);
    case RecoveryDone(id) => RecoveryJournal(s, i.env, id);
    case _ => OthersJournal(s, i);
  }

  lemma OthersJournal(s: State, i: Input)
    requires Enabled(s, i) && !i.event.Refresh? && !i.event.ConnectFinish? && !i.event.SnapshotIn?
             && !i.event.ControlIn?
    requires !i.event.RecoveryDone?
    ensures PlainMove(s, Next(s, i), i.env.now, Drawn(i.event))
  {
    if i.event.Tick? {
      TickJournal(s, i.env);
    } else if i.event.Disconnected? {
      DisconnectJournal(s, i.env, i.event.client);
    } else if i.event.FailClosed? {
      DisconnectJournal(s, i.env, 0);
    } else {
      SameIsPlain(s, Next(s, i), i.env.now, Drawn(i.event));
    }
  }

  // ---- what holds in every reachable state ----

  predicate StopInv(s: State) {
    && Keyed(s) && OneProbe(s)
    && (forall ch | ch in s.journal.probes ::
          var p := s.journal.probes[ch];
          && p.deadline <= p.issuedAt + ATTEMPT_LIFETIME
          && (p.purpose.ApplyConfirmation? && s.journal.query.Some? ==> ConfirmationOf(p, s.journal.query.value)))
    && (forall ch | ch in s.journal.attempts :: s.journal.attempts[ch].challenge == ch)
  }

  lemma PlainKeepsInv(s: State, t: State, now: Time, ids: set<Id>)
    requires StopInv(s) && PlainMove(s, t, now, ids)
    ensures StopInv(t)
  {
  }

  lemma TakeKeepsInv(s: State, t: State, env: Env, st: LocalStop)
    requires StopInv(s) && st.challenge in s.journal.probes && TakeMove(s, t, env, st)
    ensures StopInv(t)
  {
    assert forall ch | ch in t.journal.probes :: ch in s.journal.probes && st.challenge in s.journal.probes;
    assert t.journal.probes == map[];
  }

  lemma ReplyKeepsInv(s: State, t: State, env: Env, c: Control, ids: set<Id>)
    requires StopInv(s) && c.challenge in s.journal.attempts && ReplyMove(s, t, env, c, ids)
    ensures StopInv(t)
  {
  }

  lemma StepKeepsInv(s: State, i: Input, t: State)
    requires StopInv(s) && JournalEffect(s, i, t)
    ensures StopInv(t)
  {
    match i.event
    case SnapshotIn(st, _, id) =>
      if TakesAt(s, i) {
        TakeKeepsInv(s, t, i.env, st);
      } else {
        PlainKeepsInv(s, t, i.env.now, Drawn1(id));
      }
    case ControlIn(c, id) =>
      if ForwardsAt(s, i) {
        ReplyKeepsInv(s, t, i.env, c, Drawn1(id));
      } else {
        PlainKeepsInv(s, t, i.env.now, Drawn1(id));
      }
    case _ => PlainKeepsInv(s, t, i.env.now, Drawn(i.event));
  }

  ghost predicate StopTrace(ss: seq<State>, es: seq<Input>) {
    && |ss| == |es| + 1 && ss[0].journal.probes == map[] && ss[0].journal.attempts == map[]
    && (forall k: nat | k < |ss| :: StopInvAt(ss, k))
    && (forall k: nat | k < |es| :: JournalAt(ss, es, k))
  }

  ghost predicate StopInvAt(ss: seq<State>, k: nat)
    requires k < |ss|
  {
    StopInv(ss[k])
  }

  ghost predicate JournalAt(ss: seq<State>, es: seq<Input>, k: nat)
    requires |ss| == |es| + 1 && k < |es|
  {
    es[k].env.now > 0 && JournalEffect(ss[k], es[k], ss[k + 1])
  }

  lemma {:induction false} RunKeepsStopInv(ss: seq<State>, es: seq<Input>, j: nat)
    requires IsRun(ss, es) && j < |ss|
    ensures StopInv(ss[j])
  {
    if j > 0 {
      RunKeepsStopInv(ss, es, j - 1);
      assert StepAt(ss, es, j - 1);
      NextJournal(ss[j - 1], es[j - 1]);
      StepKeepsInv(ss[j - 1], es[j - 1], ss[j]);
    }
  }

  lemma RunIsStopTrace(ss: seq<State>, es: seq<Input>)
    requires IsRun(ss, es)
    ensures StopTrace(ss, es)
  {
    forall k: nat | k < |ss|
      ensures StopInvAt(ss, k)
    {
      RunKeepsStopInv(ss, es, k);
    }
    forall k: nat | k < |es|
      ensures JournalAt(ss, es, k)
    {
      assert StepAt(ss, es, k) && StopInvAt(ss, k);
      NextJournal(ss[k], es[k]);
    }
  }

  // ---- tracing probes and attempts back to the step that made them ----

  /** The probe `ch` is issued in this step. */
  predicate IssuedIn(s: State, i: Input, t: State, ch: Id) {
    && ch in t.journal.probes && ch in Drawn(i.event) && t.journal.probes[ch].issuedAt == i.env.now
    && IssuedNow(t, i.env.now, t.journal.probes[ch])
    && (t.journal.probes[ch].purpose.ApplyConfirmation? ==>
          WantsAt(s, i) && SameLine(s, t) && ConfirmationOf(t.journal.probes[ch], s.journal.query.value))
  }

  lemma ProbeOrigin(s: State, i: Input, t: State, ch: Id)
    requires JournalEffect(s, i, t) && ch in t.journal.probes
    ensures
      || (ch in s.journal.probes && t.journal.probes[ch] == s.journal.probes[ch] && SameLine(s, t))
      || IssuedIn(s, i, t, ch)
  {
  }

  /** A probe outstanding at `j` was outstanding at `lo` already or issued since, on this connection and epoch. */
  lemma {:induction false} TraceProbe(ss: seq<State>, es: seq<Input>, lo: nat, j: nat, ch: Id) returns (k: nat)
    requires StopTrace(ss, es) && lo <= j < |ss| && ch !in ss[lo].journal.probes && ch in ss[j].journal.probes
    ensures lo <= k < j && IssuedIn(ss[k], es[k], ss[k + 1], ch)
    ensures ss[j].journal.probes[ch] == ss[k + 1].journal.probes[ch] && SameLine(ss[k + 1], ss[j])
    decreases j
  {
    assert JournalAt(ss, es, j - 1);
    ProbeOrigin(ss[j - 1], es[j - 1], ss[j], ch);
    if ch in ss[j - 1].journal.probes && ss[j].journal.probes[ch] == ss[j - 1].journal.probes[ch]
        && SameLine(ss[j - 1], ss[j]) {
      k := TraceProbe(ss, es, lo, j - 1, ch);
    } else {
      k := j - 1;
    }
  }

  /** This step queues the stop request `pub`. */
  predicate QueuesStop(s: State, t: State, pub: MqttPub) {
    pub.StopPub? && |t.log.stops| == |s.log.stops| + 1 && t.log.stops[|s.log.stops|].pub == pub
  }

  predicate SentIn(s: State, i: Input, t: State, ch: Id) {
    && TakesAt(s, i) && i.event.state.challenge == ch && ch in t.journal.attempts && SameLine(s, t)
    && (var a := t.journal.attempts[ch];
        && SentFor(s, i.env, i.event.state, s.journal.probes[ch], a)
        && QueuesStop(s, t, StopPub(a.op, a.fence, ch, a.mode)))
  }

  lemma AttemptOrigin(s: State, i: Input, t: State, ch: Id)
    requires JournalEffect(s, i, t) && ch in t.journal.attempts
    ensures
      || (ch in s.journal.attempts && SameLine(s, t) &&
          t.journal.attempts[ch] == (if ForwardsAt(s, i) && i.event.control.challenge == ch
                                     then s.journal.attempts[ch].(consumed := true) else s.journal.attempts[ch]))
      || SentIn(s, i, t, ch)
  {
  }

  /** An attempt kept at `j` was kept at `lo` already, or sent since; consumption is never undone. */
  lemma {:induction false} TraceAttempt(ss: seq<State>, es: seq<Input>, lo: nat, j: nat, ch: Id) returns (k: nat)
    requires StopTrace(ss, es) && lo <= j < |ss| && ch in ss[j].journal.attempts
    requires ch !in ss[lo].journal.attempts || (ss[lo].journal.attempts[ch].consumed
             && !ss[j].journal.attempts[ch].consumed)
    ensures lo <= k < j && SentIn(ss[k], es[k], ss[k + 1], ch)
    ensures SameLine(ss[k + 1], ss[j])
    ensures ss[j].journal.attempts[ch].(consumed := false) == ss[k + 1].journal.attempts[ch]
    decreases j
  {
    assert JournalAt(ss, es, j - 1);
    AttemptOrigin(ss[j - 1], es[j - 1], ss[j], ch);
    if SentIn(ss[j - 1], es[j - 1], ss[j], ch) {
      k := j - 1;
    } else {
      k := TraceAttempt(ss, es, lo, j - 1, ch);
    }
  }

  lemma TakenIsGone(s: State, i: Input, t: State)
    requires JournalEffect(s, i, t) && TakesAt(s, i)
    ensures i.event.state.challenge !in t.journal.probes
  {
  }

  /** With fresh identifiers, no probe is answered twice. */
  lemma TakenOnce(ss: seq<State>, es: seq<Input>, k: nat, l: nat)
    requires StopTrace(ss, es) && DrawsAreFresh(es) && k < |es| && l < |es| && TakesAt(ss[k], es[k])
             && TakesAt(ss[l], es[l])
    requires es[k].event.state.challenge == es[l].event.state.challenge
    ensures k == l
  {
    if k != l {
      var a, b := if k < l then k else l, if k < l then l else k;
      var ch := es[a].event.state.challenge;
      var first := TraceProbe(ss, es, 0, a, ch);
      assert JournalAt(ss, es, a);
      TakenIsGone(ss[a], es[a], ss[a + 1]);
      var second := TraceProbe(ss, es, a + 1, b, ch);
    }
  }

  lemma ReplyConsumes(s: State, i: Input, t: State)
    requires JournalEffect(s, i, t) && ForwardsAt(s, i)
    ensures var ch := i.event.control.challenge; ch in t.journal.attempts && t.journal.attempts[ch].consumed
  {
  }

  // ---- each attempt is answered at most once ----

  /** At most one result is forwarded for an attempt. */
  lemma ForwardedOnce(ss: seq<State>, es: seq<Input>, k: nat, l: nat)
    requires IsRun(ss, es) && DrawsAreFresh(es) && k < |es| && l < |es| && ForwardsAt(ss[k], es[k])
             && ForwardsAt(ss[l], es[l])
    requires es[k].event.control.challenge == es[l].event.control.challenge
    ensures k == l
  {
    RunIsStopTrace(ss, es);
    ForwardedOnceInTrace(ss, es, k, l);
  }

  lemma ForwardedOnceInTrace(ss: seq<State>, es: seq<Input>, k: nat, l: nat)
    requires StopTrace(ss, es) && DrawsAreFresh(es) && k < |es| && l < |es| && ForwardsAt(ss[k], es[k])
             && ForwardsAt(ss[l], es[l])
    requires es[k].event.control.challenge == es[l].event.control.challenge
    ensures k == l
  {
    if k != l {
      var a, b := if k < l then k else l, if k < l then l else k;
      var ch := es[a].event.control.challenge;
      assert JournalAt(ss, es, a);
      ReplyConsumes(ss[a], es[a], ss[a + 1]);
      var first := TraceAttempt(ss, es, 0, a, ch);
      var second := TraceAttempt(ss, es, a + 1, b, ch);
      TakenOnce(ss, es, first, second);
    }
  }

  // ---- query before apply ----

  predicate AppliesAt(s: State, i: Input, t: State) {
    && |t.log.stops| == |s.log.stops| + 1
    && var pub := t.log.stops[|s.log.stops|].pub; pub.StopPub? && pub.mode.Apply?
  }

  /** Two snapshots report the same prepared stop. */
  predicate SamePrepared(a: LocalStop, b: LocalStop) {
    a.phase.Prepared? && b.phase.Prepared? && a.op.Some? && a.op == b.op && a.revision == b.revision
        && a.expected == b.expected
  }

  /**
   The apply queued at step `k` is justified by the query queued at step `q` and its reply at step
   `r`: one connection and IPC epoch; the same prepared stop before and after; a query of that
   operation and fence; `not_found` in answer to that very query; a probe issued only with that
   reply and answered at `k`; all before the deadline of the probe that started it.
   */
  ghost predicate Justifies(ss: seq<State>, es: seq<Input>, q: nat, r: nat, k: nat)
    requires |ss| == |es| + 1
  {
    && q < r < k < |es|
    && TakesAt(ss[q], es[q]) && ForwardsAt(ss[r], es[r]) && TakesAt(ss[k], es[k])
    && (var first := es[q].event.state;
        var second := es[k].event.state;
        var reply := es[r].event.control;
        && SameLine(ss[q], ss[r]) && SameLine(ss[r], ss[k])
        && SamePrepared(first, second)
        && QueuesStop(ss[q], ss[q + 1], StopPub(first.op.value, first.expected, first.challenge, Query))
        && reply.challenge == first.challenge && reply.stopResult == Some(NotFound) && reply.stopOp == first.op
        && second.challenge in Drawn(es[r].event) && second.challenge in ss[r + 1].journal.probes
        && QueuesStop(ss[k], ss[k + 1], StopPub(first.op.value, first.expected, second.challenge, Apply))
        && es[k].env.now < ss[q].journal.probes[first.challenge].deadline)
  }

  lemma ApplyStep(s: State, i: Input, t: State)
    requires StopInv(s) && JournalEffect(s, i, t) && AppliesAt(s, i, t)
    ensures TakesAt(s, i)
    ensures
      var st := i.event.state;
      var p := s.journal.probes[st.challenge];
      && p.purpose.ApplyConfirmation? && st.phase.Prepared? && i.env.now < p.deadline
      && st.op == Some(p.op) && st.revision == p.revision && st.expected == p.fence
      && QueuesStop(s, t, StopPub(p.op, p.fence, st.challenge, Apply))
  {
  }

  lemma QueryStep(s: State, i: Input, t: State, ch: Id)
    requires StopInv(s) && JournalEffect(s, i, t) && i.env.now > 0 && SentIn(s, i, t, ch)
             && t.journal.attempts[ch].mode.Query?
    ensures
      var st := i.event.state;
      && st.op.Some? && QueuesStop(s, t, StopPub(st.op.value, st.expected, ch, Query))
      && t.journal.attempts[ch].deadline == s.journal.probes[ch].deadline
  {
  }

  /** The pending query was set by the snapshot whose challenge it names. */
  lemma {:induction false} TraceQuery(ss: seq<State>, es: seq<Input>, j: nat) returns (k: nat)
    requires StopTrace(ss, es) && j < |ss| && ss[j].journal.query.Some? && ss[0].journal.query.None?
    ensures k < j && TakesAt(ss[k], es[k]) && es[k].event.state.phase.Prepared?
    ensures es[k].event.state.challenge == ss[j].journal.query.value.queryChallenge
    decreases j
  {
    k := j - 1;
    assert JournalAt(ss, es, k);
    if ss[k].journal.query == ss[j].journal.query {
      k := TraceQuery(ss, es, j - 1);
    }
  }

  /** In every run, an apply is queued only after its query was answered `not_found` and confirmed afresh. */
  lemma QueryBeforeApply(ss: seq<State>, es: seq<Input>, k: nat) returns (q: nat, r: nat)
    requires IsRun(ss, es) && DrawsAreFresh(es) && k < |es| && AppliesAt(ss[k], es[k], ss[k + 1])
    ensures Justifies(ss, es, q, r, k)
  {
    RunIsStopTrace(ss, es);
    q, r := JustifyApply(ss, es, k);
  }

  lemma JustifyApply(ss: seq<State>, es: seq<Input>, k: nat) returns (q: nat, r: nat)
    requires StopTrace(ss, es) && ss[0].journal.query.None? && DrawsAreFresh(es)
    requires k < |es| && AppliesAt(ss[k], es[k], ss[k + 1])
    ensures Justifies(ss, es, q, r, k)
  {
    assert JournalAt(ss, es, k) && StopInvAt(ss, k);
    ApplyStep(ss[k], es[k], ss[k + 1]);
    r := TraceProbe(ss, es, 0, k, es[k].event.state.challenge);
    var ch := es[r].event.control.challenge;
    q := TraceAttempt(ss, es, 0, r, ch);
    assert JournalAt(ss, es, q) && StopInvAt(ss, q);
    QueryStep(ss[q], es[q], ss[q + 1], ch);
    var setAt := TraceQuery(ss, es, r);
    TakenOnce(ss, es, q, setAt);
  }

  /** Each query leads to at most one apply. */
  lemma OneApplyPerQuery(ss: seq<State>, es: seq<Input>, q: nat, r1: nat, k1: nat, r2: nat, k2: nat)
    requires IsRun(ss, es) && DrawsAreFresh(es) && Justifies(ss, es, q, r1, k1) && Justifies(ss, es, q, r2, k2)
    ensures k1 == k2
  {
    ForwardedOnce(ss, es, r1, r2);
    AnsweredOnce(ss, es, k1, k2);
  }

  lemma AnsweredOnce(ss: seq<State>, es: seq<Input>, k: nat, l: nat)
    requires IsRun(ss, es) && DrawsAreFresh(es) && k < |es| && l < |es| && TakesAt(ss[k], es[k])
             && TakesAt(ss[l], es[l])
    requires es[k].event.state.challenge == es[l].event.state.challenge
    ensures k == l
  {
    RunIsStopTrace(ss, es);
    TakenOnce(ss, es, k, l);
  }

  // ---- a retired stop stays retired ----

  lemma StopIsSent(s: State, i: Input, t: State, pub: MqttPub)
    requires JournalEffect(s, i, t) && QueuesStop(s, t, pub)
    ensures SentIn(s, i, t, pub.stopChallenge)
  {
  }

  /** Once the IPC epoch has moved on, a stop queued before is never authorized again. */
  lemma RetiredStopIsNeverAuthorized(ss: seq<State>, es: seq<Input>, k: nat, j: nat, env: Env, pub: MqttPub)
    requires IsRun(ss, es) && DrawsAreFresh(es) && k < j < |ss| && QueuesStop(ss[k], ss[k + 1], pub)
    requires ss[j].journal.epoch != ss[k].journal.epoch
    ensures !Authorized(ss[j], env, pub)
  {
    RunIsStopTrace(ss, es);
    assert JournalAt(ss, es, k);
    StopIsSent(ss[k], es[k], ss[k + 1], pub);
    if pub.stopChallenge in ss[j].journal.attempts {
      var l := TraceAttempt(ss, es, 0, j, pub.stopChallenge);
      TakenOnce(ss, es, k, l);
    }
  }

  // ---- limits ----

  lemma AtMostOneKey(m: map<Id, Probe>)
    requires forall a, b | a in m && b in m :: a == b
    ensures |m| <= 1
  {
    if m != map[] {
      var a :| a in m;
      assert m.Keys == {a};
    }
  }

  /** At most one probe is outstanding. */
  lemma OneOutstandingProbe(ss: seq<State>, es: seq<Input>, j: nat)
    requires IsRun(ss, es) && j < |ss|
    ensures |ss[j].journal.probes| <= 1
  {
    RunKeepsStopInv(ss, es, j);
    AtMostOneKey(ss[j].journal.probes);
  }

  predicate OneLive(s: State, now: Time) {
    forall a, b | a in s.journal.attempts && b in s.journal.attempts &&
                  AttemptLive(s.journal.attempts[a], now) && AttemptLive(s.journal.attempts[b], now) :: a == b
  }

  lemma StepKeepsOneLive(s: State, i: Input, t: State, now: Time)
    requires JournalEffect(s, i, t) && OneLive(s, i.env.now) && i.env.now <= now
    ensures OneLive(t, now)
  {
  }

  /** At most one stop attempt is live, at the last step and at any later time. */
  lemma {:induction false} OneLiveAttempt(ss: seq<State>, es: seq<Input>, j: nat, now: Time)
    requires IsRun(ss, es) && ClockNeverGoesBack(es) && j < |ss| && (j > 0 ==> es[j - 1].env.now <= now)
    ensures OneLive(ss[j], now)
  {
    if j > 0 {
      RunKeepsStopInv(ss, es, j - 1);
      OneLiveAttempt(ss, es, j - 1, es[j - 1].env.now);
      assert StepAt(ss, es, j - 1);
      NextJournal(ss[j - 1], es[j - 1]);
      StepKeepsOneLive(ss[j - 1], es[j - 1], ss[j], now);
    }
  }

  // ---- re-consent after a veto ----

  /**
   The steps by which consent is rebuilt after step `i`: a probe drawn at or after `i`, in a later
   IPC epoch, is answered idle; then an active activity is accepted and a challenge registered;
   then the grant that answers this challenge is accepted.
   */
  ghost predicate ConsentChain(ss: seq<State>, es: seq<Input>, i: nat, probed: nat, idle: nat, active: nat,
                               registered: nat, granted: nat)
    requires |ss| == |es| + 1
  {
    && i <= probed < idle < active < granted < |es| && idle < registered < granted
    && TakesAt(ss[idle], es[idle]) && es[idle].event.state.phase.Idle?
    && IssuedIn(ss[probed], es[probed], ss[probed + 1], es[idle].event.state.challenge)
    && ss[i].journal.epoch < ss[probed + 1].journal.epoch
    && ActivatesAt(ss[active], es[active]) && es[active].event.activity.active
    && ActivatesAt(ss[registered], es[registered]) && GrantsAt(ss[granted], es[granted])
    && es[registered].event.activity.challenge == es[granted].event.control.challenge
    && ss[granted].consent.activity == Some(es[active].event.activity)
  }

  /** After any inhibit, failure or connection reset, a grant is held only once consent was rebuilt in full. */
  lemma ReconsentAfterVeto(ss: seq<State>, es: seq<Input>, i: nat, j: nat)
    returns (probed: nat, idle: nat, active: nat, registered: nat, granted: nat)
    requires IsRun(ss, es) && i < j < |ss| && i < |es| && Vetoes(ss[i], es[i]) && ss[j].consent.grant.Some?
    ensures granted < j && ConsentChain(ss, es, i, probed, idle, active, registered, granted)
    ensures ss[j].consent.grant == Some(es[granted].event.control)
  {
    RunIsTrace(ss, es);
    RunIsStopTrace(ss, es);
    idle, active, registered, granted := RebuildGrant(ss, es, i, j);
    assert EffectAt(ss, es, i);
    VetoVoids(ss[i], es[i], ss[i + 1]);
    probed := TraceProbeSinceVeto(ss, es, i, idle, es[idle].event.state.challenge);
    EpochGrows(ss, es, i + 1, probed + 1);
  }

  lemma RebuildGrant(ss: seq<State>, es: seq<Input>, i: nat, j: nat)
    returns (idle: nat, active: nat, registered: nat, granted: nat)
    requires Trace(ss, es) && i < j < |ss| && i < |es| && Vetoes(ss[i], es[i]) && ss[j].consent.grant.Some?
    ensures i < idle < active < granted < j && idle < registered < granted
    ensures TakesAt(ss[idle], es[idle]) && es[idle].event.state.phase.Idle?
    ensures es[idle].event.state.challenge in ss[idle].journal.probes
    ensures ActivatesAt(ss[active], es[active]) && es[active].event.activity.active
    ensures ActivatesAt(ss[registered], es[registered]) && GrantsAt(ss[granted], es[granted])
    ensures es[registered].event.activity.challenge == es[granted].event.control.challenge
    ensures ss[granted].consent.activity == Some(es[active].event.activity)
    ensures ss[j].consent.grant == Some(es[granted].event.control)
  {
    assert EffectAt(ss, es, i);
    VetoVoids(ss[i], es[i], ss[i + 1]);
    granted := TraceGrant(ss, es, i + 1, j);
    registered := TraceChallenge(ss, es, i + 1, granted, es[granted].event.control.challenge);
    active := TraceActivity(ss, es, i + 1, granted);
    idle := TraceReady(ss, es, i + 1, if active < registered then active else registered);
  }

  lemma EpochStep(s: State, i: Input, t: State)
    requires WellFormed(i.event) && Effect(s, i, t)
    ensures s.journal.epoch <= t.journal.epoch
  {
  }

  lemma {:induction false} EpochGrows(ss: seq<State>, es: seq<Input>, i: nat, j: nat)
    requires Trace(ss, es) && i <= j < |ss|
    ensures ss[i].journal.epoch <= ss[j].journal.epoch
    decreases j
  {
    if i < j {
      EpochGrows(ss, es, i, j - 1);
      assert EffectAt(ss, es, j - 1);
      EpochStep(ss[j - 1], es[j - 1], ss[j]);
    }
  }

  /** A probe outstanding after the veto at step `i` was issued in that step or later. */
  lemma {:induction false} TraceProbeSinceVeto(ss: seq<State>, es: seq<Input>, i: nat, j: nat, ch: Id) returns (k: nat)
    requires StopTrace(ss, es) && i < j < |ss| && ss[i].journal.epoch < ss[i + 1].journal.epoch
             && ch in ss[j].journal.probes
    ensures i <= k < j && IssuedIn(ss[k], es[k], ss[k + 1], ch)
    decreases j
  {
    assert JournalAt(ss, es, j - 1);
    ProbeOrigin(ss[j - 1], es[j - 1], ss[j], ch);
    if IssuedIn(ss[j - 1], es[j - 1], ss[j], ch) {
      k := j - 1;
    } else {
      k := TraceProbeSinceVeto(ss, es, i, j - 1, ch);
    }
  }
}
