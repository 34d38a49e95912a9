/**
 What a held grant rests on, over every run: consent is still open, a veto can only be undone by
 the whole consent chain, the lease is anchored at a registered challenge, and authority never
 moves back.
 */
module ConsentProofs {
  import opened Basics
  import opened Messages
  import opened AdapterModel
  import opened AdapterRuns

  // ---- what one step does to consent ----

  /** A new client takes over the adapter, or the current one is gone. */
  predicate ResetsConnection(s: State, i: Input) {
    match i.event
    case ConnectFinish(_, attempt, connection, _, _) => s.link.attempt == attempt && connection.Some?
    case Disconnected(client) => s.link.client == Some(client)
    case _ => false
  }

  /** The step inhibits the journal, fails closed, or resets the connection. */
  predicate Vetoes(s: State, i: Input) {
    match i.event
    case FailClosed => true
    case Refresh(blocked, _, _, _) => blocked || s.consent.blocked
    case SnapshotIn(st, _, _) => !TakesSnapshot(s, i.env, st) && VetoedBySnapshot(s, i.env, st)
    case ControlIn(c, _) =>
      && Linked(s, i.env) && c.nonce == s.link.connection && c.action.Status? && c.stopResult.Some?
      && AnswersAttempt(s, i.env, c) && !ForwardsReply(s, i.env, c)
    case _ => ResetsConnection(s, i)
  }

  predicate GrantsAt(s: State, i: Input) {
    i.event.ControlIn? && AcceptsGrant(s, i.env, i.event.control)
  }

  predicate ActivatesAt(s: State, i: Input) {
    i.event.ActivityIn? && AcceptsActivity(s, i.env, i.event.activity)
  }

  predicate TakesAt(s: State, i: Input) {
    i.event.SnapshotIn? && TakesSnapshot(s, i.env, i.event.state)
  }

  predicate ClearsAt(s: State, i: Input) {
    i.event.ControlIn? && ClearsGrant(s, i.env, i.event.control)
  }

  predicate SameJournalCore(s: State, t: State) {
    t.journal.ready == s.journal.ready && t.journal.state == s.journal.state &&
    t.journal.blocked == s.journal.blocked && t.journal.epoch == s.journal.epoch
  }

  /** Nothing that was granted or registered survives. */
  predicate Voided(s: State, t: State) {
    && t.journal.epoch > s.journal.epoch && !t.journal.ready
    && (t.journal.state == s.journal.state || t.journal.state.None?)
    && t.consent.activity.None? && t.consent.challenges == map[] && t.consent.grant.None?
  }

  /** The consent side is untouched. */
  predicate Quiet(s: State, t: State) {
    SameJournalCore(s, t) && t.consent == s.consent && t.phase == s.phase
  }

  predicate KeepsAuthority(s: State, t: State) {
    t.consent.lastAuthority == s.consent.lastAuthority && t.consent.lastCleared == s.consent.lastCleared
  }

  predicate SnapshotMove(s: State, t: State, env: Env, st: LocalStop) {
    if TakesSnapshot(s, env, st) then
      && t.consent == (if st.blocked || !st.phase.Idle? then ClearGrant(s).consent else s.consent)
      && t.journal.ready == (st.phase.Idle? && !st.blocked) && t.journal.state == Some(st)
      && t.journal.blocked == st.blocked && t.journal.epoch == s.journal.epoch && t.phase == s.phase
    else if VetoedBySnapshot(s, env, st) then
      Voided(s, t) && KeepsAuthority(s, t) && t.phase == s.phase && t.consent.settingsReady == s.consent.settingsReady
    else Quiet(s, t)
  }

  predicate ActivityMove(s: State, t: State, env: Env, a: Activity, victim: Id) {
    if !AcceptsActivity(s, env, a) then Quiet(s, t)
    else
      && SameJournalCore(s, t) && KeepsAuthority(s, t) && t.phase == s.phase
      && t.consent.activity == Some(a) && t.consent.activityAt == env.now
      && t.consent.challenges == PruneChallenges(s.consent.challenges[a.challenge := env.now], env.now, victim)
      && t.consent.grant == (if a.active then s.consent.grant else None)
      && (a.active ==> t.consent.grantAt == s.consent.grantAt && t.consent.grantTTL == s.consent.grantTTL)
      && t.consent.settingsReady == s.consent.settingsReady && t.consent.blocked == s.consent.blocked
  }

  predicate GrantMove(s: State, t: State, env: Env, c: Control) {
    if !AcceptsGrant(s, env, c) then Quiet(s, t)
    else
      && SameJournalCore(s, t) && t.phase == s.phase
      && t.consent == s.consent.(
           grant := Some(c), lastAuthority := Some(c), lastCleared := None, grantAt := env.now,
           grantTTL := c.ttlMs * MILLISECOND - (env.now - s.consent.challenges[c.challenge]),
           grantActive := t.consent.grantActive, cadence := t.consent.cadence)
  }

  /** A clear either retires the held grant and its activity, or at most forgets the challenges. */
  predicate ClearMove(s: State, t: State, env: Env, c: Control) {
    && SameJournalCore(s, t) && t.phase == s.phase
    && if ClearsGrant(s, env, c) then
         t.consent == DropActivity(ClearGrant(s)).consent.(lastCleared := Some(c))
       else
         t.consent == s.consent || (s.consent.grant.None? && t.consent == s.consent.(challenges := map[]))
  }

  predicate StatusMove(s: State, t: State, env: Env, c: Control) {
    if c.stopResult.Some? && Linked(s, env) && c.nonce == s.link.connection &&
       AnswersAttempt(s, env, c) && !ForwardsReply(s, env, c)
    then Voided(s, t) && KeepsAuthority(s, t) && t.phase == s.phase
        && t.consent.settingsReady == s.consent.settingsReady
    else Quiet(s, t)
  }

  predicate ControlMove(s: State, t: State, env: Env, c: Control) {
    match c.action
    case Status => StatusMove(s, t, env, c)
    case Clear => ClearMove(s, t, env, c)
    case Grant => GrantMove(s, t, env, c)
    case Renew => GrantMove(s, t, env, c)
  }

  /** Expiry drops the activity with its challenges and the grant, or the grant, or nothing. */
  predicate TickMove(s: State, t: State) {
    && SameJournalCore(s, t) && t.phase == s.phase
    && (t.consent == s.consent || t.consent == ClearGrant(s).consent
        || t.consent == DropActivity(ClearGrant(s)).consent)
  }

  predicate RefreshMove(s: State, t: State, blocked: bool) {
    if blocked || s.consent.blocked then Voided(s, t) && KeepsAuthority(s, t) && t.phase == s.phase
    else SameJournalCore(s, t) && t.consent == s.consent.(settingsReady := true) && t.phase == s.phase
  }

  /** What each kind of step does to consent and to the journal's verdict. */
  predicate Effect(s: State, i: Input, t: State) {
    match i.event
    case SnapshotIn(st, _, _) => SnapshotMove(s, t, i.env, st)
    case ActivityIn(a, victim) => ActivityMove(s, t, i.env, a, victim)
    case ControlIn(c, _) => ControlMove(s, t, i.env, c)
    case Tick => TickMove(s, t)
    case Refresh(blocked, _, _, _) => RefreshMove(s, t, blocked)
    case FailClosed => Voided(s, t) && KeepsAuthority(s, t) && t.phase.Subscribing? && !t.consent.settingsReady
    case RecoveryBegin => SameJournalCore(s, t) && t.consent == s.consent.(settingsReady := false)
        && t.phase.Recovering?
    case RecoveryDone(_) => SameJournalCore(s, t) && t.consent == s.consent && t.phase.Serving?
    case _ => if ResetsConnection(s, i) then Voided(s, t) && t.phase == s.phase &&
                                             t.consent.settingsReady == s.consent.settingsReady
              else Quiet(s, t)
  }

  lemma RefreshEffect(s: State, env: Env, blocked: bool, hello: Option<Id>, first: Option<Id>, second: Option<Id>)
    ensures RefreshMove(s, OnRefresh(s, env, blocked, hello, first, second), blocked)
  {
  }

  lemma SnapshotEffect(s: State, env: Env, st: LocalStop, evict: Id, id: Option<Id>)
    ensures SnapshotMove(s, OnSnapshot(s, env, st, evict, id), env, st)
  {
  }

  lemma ActivityEffect(s: State, env: Env, a: Activity, victim: Id)
    ensures ActivityMove(s, OnActivity(s, env, a, victim), env, a, victim)
  {
  }

  lemma ControlEffect(s: State, env: Env, c: Control, id: Option<Id>)
    requires ValidControl(c)
    ensures ControlMove(s, OnControl(s, env, c, id), env, c)
  {
  }

  lemma ConnectEffect(s: State, env: Env, client: nat, attempt: nat, connection: Option<Id>, hello: Option<Id>,
      id: Option<Id>)
    ensures Effect(s, Input(env, ConnectFinish(client, attempt, connection, hello, id)),
            OnConnectFinish(s, env, client, attempt, connection, hello, id))
  {
  }

  lemma DisconnectEffect(s: State, env: Env, client: nat)
    ensures Effect(s, Input(env, Disconnected(client)), OnDisconnected(s, client))
  {
  }

  lemma TickEffect(s: State, env: Env)
    ensures TickMove(s, OnTick(s, env))
  {
  }

  lemma NextEffect(s: State, i: Input)
    requires Enabled(s, i)
    ensures Effect(s, i, Next(s, i))
  {
    match i.event
    case Refresh(blocked, hello, first, second) => RefreshEffect(s, i.env, blocked, hello, first, second);
    case SnapshotIn(st, evict, id) => SnapshotEffect(s, i.env, st, evict, id);
    case ActivityIn(a, victim) => ActivityEffect(s, i.env, a, victim);
    case ControlIn(c, id) => ControlEffect(s, i.env, c, id);
    case ConnectFinish(client, attempt, connection, hello, id) =>
      ConnectEffect(s, i.env, client, attempt, connection, hello, id);
    case Disconnected(client) => DisconnectEffect(s, i.env, client);
    case Tick => TickEffect(s, i.env);
    case _ => OthersEffect(s, i);
  }

  lemma OthersEffect(s: State, i: Input)
    requires Enabled(s, i) && !i.event.Refresh? && !i.event.SnapshotIn? && !i.event.ActivityIn? && !i.event.ControlIn?
    requires !i.event.ConnectFinish? && !i.event.Disconnected? && !i.event.Tick?
    ensures Effect(s, i, Next(s, i))
  {
  }

  /** The steps of a run, as far as consent can see them. */
  ghost predicate Trace(ss: seq<State>, es: seq<Input>) {
    |ss| == |es| + 1 && forall k: nat | k < |es| :: EffectAt(ss, es, k)
  }

  ghost predicate EffectAt(ss: seq<State>, es: seq<Input>, k: nat)
    requires |ss| == |es| + 1 && k < |es|
  {
    WellFormed(es[k].event) && Effect(ss[k], es[k], ss[k + 1])
  }

  lemma RunIsTrace(ss: seq<State>, es: seq<Input>)
    requires IsRun(ss, es)
    ensures Trace(ss, es)
  {
    forall k: nat | k < |es|
      ensures EffectAt(ss, es, k)
    {
      assert StepAt(ss, es, k);
      NextEffect(ss[k], es[k]);
    }
  }

  // ---- a held grant implies consent ----

  /** A held grant rests on open settings, an idle unblocked journal and an active activity. */
  predicate HeldGrantHasConsent(s: State) {
    s.consent.grant.Some? ==> ConsentOpen(s) && s.consent.activity.Some? && s.consent.activity.value.active
  }

  predicate ConsentInv(s: State) {
    && HeldGrantHasConsent(s)
    && (s.phase.Subscribing? ==> !s.consent.settingsReady)
    && (s.journal.ready ==> s.journal.state.Some? && s.journal.state.value.phase.Idle? && !s.journal.blocked)
    && (s.consent.grant.Some? ==>
        ValidLeaseControl(s.consent.grant.value) && s.consent.lastAuthority == s.consent.grant)
  }

  lemma EffectKeepsConsent(s: State, i: Input, t: State)
    requires ConsentInv(s) && Enabled(s, i) && Effect(s, i, t)
    ensures ConsentInv(t)
  {
  }

  lemma {:induction false} RunKeepsConsent(ss: seq<State>, es: seq<Input>, j: nat)
    requires IsRun(ss, es) && j < |ss|
    ensures ConsentInv(ss[j])
  {
    if j > 0 {
      RunKeepsConsent(ss, es, j - 1);
      assert StepAt(ss, es, j - 1);
      NextEffect(ss[j - 1], es[j - 1]);
      EffectKeepsConsent(ss[j - 1], es[j - 1], ss[j]);
    }
  }

  // ---- tracing a fact back to the step that established it ----

  lemma GrantOrigin(s: State, i: Input, t: State)
    requires WellFormed(i.event) && Effect(s, i, t) && t.consent.grant.Some?
    ensures
      if GrantsAt(s, i) then
        var c := i.event.control;
        && t.consent.grant == Some(c) && t.consent.grantAt == i.env.now
        && t.consent.grantTTL == c.ttlMs * MILLISECOND - (i.env.now - s.consent.challenges[c.challenge])
      else
        && t.consent.grant == s.consent.grant && t.consent.grantAt == s.consent.grantAt
        && t.consent.grantTTL == s.consent.grantTTL
  {
  }

  lemma ChallengeOrigin(s: State, i: Input, t: State, ch: Id)
    requires WellFormed(i.event) && Effect(s, i, t) && ch in t.consent.challenges
    ensures
      if ActivatesAt(s, i) && i.event.activity.challenge == ch then t.consent.challenges[ch] == i.env.now
      else ch in s.consent.challenges && t.consent.challenges[ch] == s.consent.challenges[ch]
  {
  }

  lemma ActivityOrigin(s: State, i: Input, t: State)
    requires WellFormed(i.event) && Effect(s, i, t) && t.consent.activity.Some?
    ensures t.consent.activity == if ActivatesAt(s, i) then Some(i.event.activity) else s.consent.activity
  {
  }

  lemma ReadyOrigin(s: State, i: Input, t: State)
    requires WellFormed(i.event) && Effect(s, i, t) && t.journal.ready && !s.journal.ready
    ensures TakesAt(s, i) && i.event.state.phase.Idle?
  {
  }

  lemma {:induction false} TraceGrant(ss: seq<State>, es: seq<Input>, lo: nat, j: nat) returns (k: nat)
    requires Trace(ss, es) && lo <= j < |ss| && ss[lo].consent.grant.None? && ss[j].consent.grant.Some?
    ensures lo <= k < j && GrantsAt(ss[k], es[k]) && ss[j].consent.grant == Some(es[k].event.control)
    ensures ss[j].consent.grantAt == es[k].env.now
    ensures ss[j].consent.grantTTL == es[k].event.control.ttlMs * MILLISECOND
                                      - (es[k].env.now - ss[k].consent.challenges[es[k].event.control.challenge])
    decreases j
  {
    k := j - 1;
    assert EffectAt(ss, es, k);
    GrantOrigin(ss[k], es[k], ss[j]);
    if !GrantsAt(ss[k], es[k]) {
      k := TraceGrant(ss, es, lo, j - 1);
    }
  }

  lemma {:induction false} TraceChallenge(ss: seq<State>, es: seq<Input>, lo: nat, j: nat, ch: Id) returns (k: nat)
    requires Trace(ss, es) && lo <= j < |ss| && ch !in ss[lo].consent.challenges && ch in ss[j].consent.challenges
    ensures lo <= k < j && ActivatesAt(ss[k], es[k]) && es[k].event.activity.challenge == ch
    ensures ss[j].consent.challenges[ch] == es[k].env.now
    decreases j
  {
    k := j - 1;
    assert EffectAt(ss, es, k);
    ChallengeOrigin(ss[k], es[k], ss[j], ch);
    if !(ActivatesAt(ss[k], es[k]) && es[k].event.activity.challenge == ch) {
      k := TraceChallenge(ss, es, lo, j - 1, ch);
    }
  }

  lemma {:induction false} TraceActivity(ss: seq<State>, es: seq<Input>, lo: nat, j: nat) returns (k: nat)
    requires Trace(ss, es) && lo <= j < |ss| && ss[lo].consent.activity.None? && ss[j].consent.activity.Some?
    ensures lo <= k < j && ActivatesAt(ss[k], es[k]) && ss[j].consent.activity == Some(es[k].event.activity)
    decreases j
  {
    k := j - 1;
    assert EffectAt(ss, es, k);
    ActivityOrigin(ss[k], es[k], ss[j]);
    if !ActivatesAt(ss[k], es[k]) {
      k := TraceActivity(ss, es, lo, j - 1);
    }
  }

  lemma {:induction false} TraceReady(ss: seq<State>, es: seq<Input>, lo: nat, j: nat) returns (k: nat)
    requires Trace(ss, es) && lo <= j < |ss| && !ss[lo].journal.ready && ss[j].journal.ready
    ensures lo <= k < j && TakesAt(ss[k], es[k]) && es[k].event.state.phase.Idle?
    decreases j
  {
    k := j - 1;
    if !ss[k].journal.ready {
      assert EffectAt(ss, es, k);
      ReadyOrigin(ss[k], es[k], ss[j]);
    } else {
      k := TraceReady(ss, es, lo, j - 1);
    }
  }

  lemma VetoVoids(s: State, i: Input, t: State)
    requires WellFormed(i.event) && Effect(s, i, t) && Vetoes(s, i)
    ensures Voided(s, t)
  {
  }

  // ---- lease arithmetic ----

  /**
   The held lease ends exactly at the registration of the answered challenge plus the granting
   message's TTL, and so at most ten seconds after that registration.
   */
  lemma LeaseEndsAtChallengePlusTTL(ss: seq<State>, es: seq<Input>, j: nat) returns (registered: nat, granted: nat)
    requires IsRun(ss, es) && j < |ss| && ss[j].consent.grant.Some?
    ensures registered < granted < j
    ensures ActivatesAt(ss[registered], es[registered]) && GrantsAt(ss[granted], es[granted])
    ensures ss[j].consent.grant == Some(es[granted].event.control)
    ensures es[registered].event.activity.challenge == es[granted].event.control.challenge
    ensures ss[j].consent.grantAt + ss[j].consent.grantTTL
            == es[registered].env.now + es[granted].event.control.ttlMs * MILLISECOND
    ensures ss[j].consent.grantAt + ss[j].consent.grantTTL <= es[registered].env.now + LEASE_DURATION
  {
    RunIsTrace(ss, es);
    granted := TraceGrant(ss, es, 0, j);
    registered := TraceChallenge(ss, es, 0, granted, es[granted].event.control.challenge);
    assert EffectAt(ss, es, granted);
  }

  // ---- authority never goes back ----

  ghost predicate SameConnection(ss: seq<State>, es: seq<Input>, i: nat, j: nat)
    requires |ss| == |es| + 1
  {
    forall k | i <= k < j && k < |es| :: !ResetsConnection(ss[k], es[k])
  }

  /** Every grant accepted from step `i` up to step `j` belongs to `session`. */
  ghost predicate OnlySession(ss: seq<State>, es: seq<Input>, i: nat, j: nat, session: Option<Id>)
    requires |ss| == |es| + 1
  {
    forall k | i <= k < j && k < |es| && GrantsAt(ss[k], es[k]) :: es[k].event.control.session == session
  }

  /** What a step that keeps the connection does to the record of accepted and cleared authority. */
  predicate AuthorityMove(s: State, i: Input, t: State) {
    && t.consent.lastAuthority == (if GrantsAt(s, i) then Some(i.event.control) else s.consent.lastAuthority)
    && t.consent.lastCleared == (if GrantsAt(s, i) then None
                                 else if ClearsAt(s, i) then Some(i.event.control) else s.consent.lastCleared)
    && (if GrantsAt(s, i) then t.consent.grant == Some(i.event.control)
        else t.consent.grant.None? || (!ClearsAt(s, i) && t.consent.grant == s.consent.grant))
  }

  lemma ControlAuthority(s: State, i: Input, t: State)
    requires WellFormed(i.event) && i.event.ControlIn? && ControlMove(s, t, i.env, i.event.control)
    ensures AuthorityMove(s, i, t)
  {
  }

  lemma AuthorityStep(s: State, i: Input, t: State)
    requires WellFormed(i.event) && Effect(s, i, t) && !ResetsConnection(s, i)
    ensures AuthorityMove(s, i, t)
  {
    if i.event.ControlIn? {
      ControlAuthority(s, i, t);
    }
  }

  ghost predicate AuthorityTrace(ss: seq<State>, es: seq<Input>, i: nat, j: nat) {
    && |ss| == |es| + 1
    && forall k | i <= k < j && k < |es| :: AuthorityMove(ss[k], es[k], ss[k + 1])
  }

  lemma RunIsAuthorityTrace(ss: seq<State>, es: seq<Input>, i: nat, j: nat)
    requires IsRun(ss, es) && SameConnection(ss, es, i, j)
    ensures AuthorityTrace(ss, es, i, j)
  {
    forall k | i <= k < j && k < |es|
      ensures AuthorityMove(ss[k], es[k], ss[k + 1])
    {
      assert StepAt(ss, es, k);
      NextEffect(ss[k], es[k]);
      AuthorityStep(ss[k], es[k], ss[k + 1]);
    }
  }

  /** The latest authority belongs to `c`'s session and does not fall behind `c`. */
  predicate AtLeast(s: State, c: Control) {
    && s.consent.lastAuthority.Some? && s.consent.lastAuthority.value.session == c.session
    && !Regresses(s.consent.lastAuthority.value, c)
  }

  lemma {:induction false} AuthorityKept(ss: seq<State>, es: seq<Input>, i: nat, j: nat)
    requires i < j < |ss| && AuthorityTrace(ss, es, i, j) && GrantsAt(ss[i], es[i])
    requires OnlySession(ss, es, i, j, es[i].event.control.session)
    ensures AtLeast(ss[j], es[i].event.control)
    decreases j
  {
    assert AuthorityMove(ss[j - 1], es[j - 1], ss[j]);
    if i < j - 1 {
      AuthorityKept(ss, es, i, j - 1);
    }
  }

  /**
   On one connection, as long as only grants of one session are accepted, no accepted grant has a
   smaller transport epoch, revision or consent generation than an earlier one, and an equal epoch
   names the same stream.
   */
  lemma AuthorityNeverGoesBack(ss: seq<State>, es: seq<Input>, i: nat, j: nat)
    requires IsRun(ss, es) && i < j < |es| && GrantsAt(ss[i], es[i]) && GrantsAt(ss[j], es[j])
    requires es[j].event.control.session == es[i].event.control.session
    requires SameConnection(ss, es, i, j) && OnlySession(ss, es, i, j, es[i].event.control.session)
    ensures !Regresses(es[j].event.control, es[i].event.control)
  {
    RunIsAuthorityTrace(ss, es, i, j);
    AuthorityKept(ss, es, i, j);
  }

  /** Epoch `e` of `session` is retired: whatever is held or accepted next for the session is above it. */
  predicate Retired(s: State, session: Option<Id>, e: int) {
    && (s.consent.grant.Some? ==> s.consent.grant.value.session == session && s.consent.grant.value.epoch > e)
    && ((s.consent.lastCleared.Some? && s.consent.lastCleared.value.session == session
        && s.consent.lastCleared.value.epoch >= e)
        || (s.consent.lastAuthority.Some? && s.consent.lastAuthority.value.session == session
            && s.consent.lastAuthority.value.epoch > e))
  }

  lemma {:induction false} RetiredStays(ss: seq<State>, es: seq<Input>, i: nat, j: nat)
    requires i < j < |ss| && AuthorityTrace(ss, es, i, j) && ClearsAt(ss[i], es[i])
    requires OnlySession(ss, es, i + 1, j, es[i].event.control.session)
    ensures Retired(ss[j], es[i].event.control.session, es[i].event.control.epoch)
    decreases j
  {
    assert AuthorityMove(ss[j - 1], es[j - 1], ss[j]);
    if i < j - 1 {
      RetiredStays(ss, es, i, j - 1);
    }
  }

  /**
   After a clear retired a held grant, every later grant of that session on the connection has a
   strictly larger transport epoch, until another session's grant is accepted; lease expiry,
   inhibits and failures in between do not matter.
   */
  lemma ClearedEpochNeverReturns(ss: seq<State>, es: seq<Input>, i: nat, j: nat)
    requires IsRun(ss, es) && i < j < |es| && ClearsAt(ss[i], es[i]) && GrantsAt(ss[j], es[j])
    requires es[j].event.control.session == es[i].event.control.session
    requires SameConnection(ss, es, i, j) && OnlySession(ss, es, i + 1, j, es[i].event.control.session)
    ensures es[j].event.control.epoch > es[i].event.control.epoch >= ss[i].consent.grant.value.epoch
  {
    RunIsAuthorityTrace(ss, es, i, j);
    RetiredStays(ss, es, i, j);
  }
}
