/**
 The service around the adapter: it dispatches one input after the other to the object and keeps,
 as ghost history, the run it has taken. What is proved of every run thereby holds of the object.
 */
module Service {
  import opened Basics
  import opened Messages
  import opened AdapterModel
  import opened AdapterRuns
  import opened AdapterObject

  // ---- what the adapter stores stays small ----

  predicate Bounded(s: State) {
    |s.journal.used| <= 10 && |s.consent.challenges| <= 9
  }

  predicate Shrinks(s: State, t: State) {
    && (t.journal.used == s.journal.used || t.journal.used == map[])
    && (t.consent.challenges == s.consent.challenges || t.consent.challenges == map[])
  }

  lemma UsedStaysSmall(s: State, st: LocalStop, evict: Id)
    requires |s.journal.used| <= 10 && (|s.journal.used| >= 10 ==> evict in s.journal.used || evict == st.challenge)
    ensures |ConsumeProbe(s, st, evict).journal.used| <= 10
  {
    var used := s.journal.used[st.challenge := st];
    assert used.Keys == s.journal.used.Keys + {st.challenge};
    assert (used - {evict}).Keys == used.Keys - {evict};
  }

  lemma SnapshotBounded(s: State, env: Env, st: LocalStop, evict: Id, id: Option<Id>)
    requires Bounded(s) && (|s.journal.used| >= 10 ==> evict in s.journal.used || evict == st.challenge)
    ensures Bounded(OnSnapshot(s, env, st, evict, id))
  {
    SnapshotUses(s, env, st, evict, id);
    UsedStaysSmall(s, st, evict);
    UsedStaysSmall(InvalidateAttempts(s), st, evict);
  }

  lemma SnapshotUses(s: State, env: Env, st: LocalStop, evict: Id, id: Option<Id>)
    ensures var t := OnSnapshot(s, env, st, evict, id);
            && (|| t.journal.used == s.journal.used || t.journal.used == map[]
                || t.journal.used == ConsumeProbe(s, st, evict).journal.used
                || t.journal.used == ConsumeProbe(InvalidateAttempts(s), st, evict).journal.used)
            && (t.consent.challenges == s.consent.challenges || t.consent.challenges == map[])
  {
  }

  lemma PrunedStaysSmall(m: map<Id, Time>, challenge: Id, now: Time, victim: Id)
    requires |m| <= 9 && OldestChallenge(m[challenge := now], now, victim)
    ensures |PruneChallenges(m[challenge := now], now, victim)| <= 9
  {
    var all := m[challenge := now];
    var recent := map c | c in all && now - all[c] < LEASE_DURATION :: all[c];
    assert all.Keys == m.Keys + {challenge};
    assert recent.Keys <= all.Keys;
    SubsetIsNoLarger(recent.Keys, all.Keys);
    assert (recent - {victim}).Keys == recent.Keys - {victim};
  }

  lemma ActivityBounded(s: State, env: Env, a: Activity, victim: Id)
    requires Bounded(s) && OldestChallenge(s.consent.challenges[a.challenge := env.now], env.now, victim)
    ensures Bounded(OnActivity(s, env, a, victim))
  {
    PrunedStaysSmall(s.consent.challenges, a.challenge, env.now, victim);
  }

  lemma ControlShrinks(s: State, env: Env, c: Control, id: Option<Id>)
    requires ValidControl(c)
    ensures Shrinks(s, OnControl(s, env, c, id))
  {
  }

  lemma InhibitShrinks(s: State, env: Env, id: Option<Id>)
    ensures Shrinks(s, InhibitBySettings(s, env, id))
  {
  }

  lemma RefreshShrinks(s: State, env: Env, blocked: bool, hello: Option<Id>, first: Option<Id>, second: Option<Id>)
    ensures Shrinks(s, OnRefresh(s, env, blocked, hello, first, second))
  {
    var s1 := s.(consent := s.consent.(blocked := blocked, settingsReady := true));
    var s2 := if !s.consent.settingsReady then AnnounceReady(s1, env, hello, first) else s1;
    InhibitShrinks(s2, env, second);
  }

  lemma ConnectShrinks(s: State, env: Env, client: nat, attempt: nat, connection: Option<Id>, hello: Option<Id>,
      id: Option<Id>)
    ensures Shrinks(s, OnConnectFinish(s, env, client, attempt, connection, hello, id))
  {
  }

  lemma NextBounded(s: State, i: Input)
    requires Bounded(s) && Enabled(s, i)
    ensures Bounded(Next(s, i))
  {
    match i.event
    case SnapshotIn(st, evict, id) => SnapshotBounded(s, i.env, st, evict, id);
    case ActivityIn(a, victim) => ActivityBounded(s, i.env, a, victim);
    case ControlIn(c, id) => ControlShrinks(s, i.env, c, id);
    case Refresh(blocked, hello, first, second) => RefreshShrinks(s, i.env, blocked, hello, first, second);
    case ConnectFinish(client, attempt, connection, hello, id) => ConnectShrinks(s, i.env, client, attempt,
        connection, hello, id);
    case _ => OthersShrink(s, i);
  }

  lemma OthersShrink(s: State, i: Input)
    requires Enabled(s, i) && !i.event.SnapshotIn? && !i.event.ActivityIn? && !i.event.ControlIn?
    requires !i.event.Refresh? && !i.event.ConnectFinish?
    ensures Shrinks(s, Next(s, i))
  {
    if i.event.Tick? {
      TickShrinks(s, i.env);
    } else if i.event.Disconnected? {
      DisconnectShrinks(s, i.event.client);
    } else if i.event.FailClosed? {
      FailureShrinks(s);
    } else {
      assert Next(s, i).journal.used == s.journal.used && Next(s, i).consent.challenges == s.consent.challenges;
    }
  }

  lemma DisconnectShrinks(s: State, client: nat)
    ensures Shrinks(s, OnDisconnected(s, client))
  {
  }

  lemma FailureShrinks(s: State)
    ensures Shrinks(s, OnFailClosed(s))
  {
  }

  lemma TickShrinks(s: State, env: Env)
    ensures Shrinks(s, OnTick(s, env))
  {
  }

  /** At most ten answers and nine challenges are held, in every run. */
  lemma {:induction false} RunStaysBounded(ss: seq<State>, es: seq<Input>, j: nat)
    requires IsRun(ss, es) && j < |ss|
    ensures Bounded(ss[j])
  {
    if j > 0 {
      RunStaysBounded(ss, es, j - 1);
      assert StepAt(ss, es, j - 1);
      NextBounded(ss[j - 1], es[j - 1]);
    }
  }

  // ---- the run that the object takes ----

  lemma RunExtends(ss: seq<State>, es: seq<Input>, i: Input)
    requires IsRun(ss, es) && Enabled(ss[|es|], i)
    ensures IsRun(ss + [Next(ss[|es|], i)], es + [i])
  {
    var tt, fs := ss + [Next(ss[|es|], i)], es + [i];
    forall k: nat | k < |fs|
      ensures StepAt(tt, fs, k)
    {
      if k < |es| {
        assert StepAt(ss, es, k);
      }
    }
  }

  /** The same event up to the map entries that the adapter itself chooses to drop. */
  predicate SameButChoice(e: Event, f: Event) {
    match e
    case SnapshotIn(state, _, probe) => f.SnapshotIn? && f.state == state && f.probe == probe
    case ActivityIn(activity, _) => f.ActivityIn? && f.activity == activity
    case _ => f == e
  }

  /** The event can happen here, whatever the adapter chooses to drop. */
  predicate Arrives(s: State, i: Input) {
    && i.env.now > 0 && WellFormed(i.event)
    && match i.event
       case RecoveryBegin => s.phase.Subscribing?
       case Refresh(_, _, _, _) => !s.phase.Subscribing?
       case RecoveryDone(_) => s.phase.Recovering?
       case SnapshotIn(_, _, _) => s.phase.Serving?
       case ActivityIn(_, _) => s.phase.Serving?
       case GpsIn(_, _) => s.phase.Serving?
       case _ => true
  }

  method Dispatch(adapter: Adapter, i: Input) returns (taken: Event)
    requires Arrives(adapter.View(), i) && Bounded(adapter.View())
    modifies adapter
    ensures SameButChoice(i.event, taken) && Enabled(old(adapter.View()), Input(i.env, taken))
    ensures adapter.View() == Next(old(adapter.View()), Input(i.env, taken))
  {
    taken := i.event;
    match i.event {
      case ConnectBegin(client) => adapter.BeginConnect(i.env, client);
      case ConnectFinish(client, attempt, connection, hello, probe) =>
        adapter.FinishConnect(i.env, client, attempt, connection, hello, probe);
      case Disconnected(client) => adapter.Disconnect(client);
      case RecoveryBegin => adapter.BeginRecovery();
      case Refresh(blocked, hello, first, second) => adapter.RefreshBlocked(i.env, blocked, hello, first, second);
      case RecoveryDone(probe) => adapter.FinishRecovery(i.env, probe);
      case FailClosed => adapter.FailClosed();
      case SnapshotIn(state, _, probe) =>
        var evicted := adapter.HandleSnapshot(i.env, state, probe);
        taken := SnapshotIn(state, evicted, probe);
      case ActivityIn(activity, _) =>
        var victim := adapter.HandleActivity(i.env, activity);
        taken := ActivityIn(activity, victim);
      case GpsIn(captured, fixOk) => adapter.HandleGps(i.env, captured, fixOk);
      case ControlIn(control, probe) => adapter.HandleControl(i.env, control, probe);
      case PeerIn(position) => adapter.HandlePeer(i.env, position);
      case PeerStatusIn(status) => adapter.HandlePeerStatus(i.env, status);
      case Tick => adapter.HandleTick(i.env);
      case RedisTake => adapter.TakeFromQueue();
      case RedisDeliver => adapter.Deliver(i.env);
    }
  }

  class History {
    const adapter: Adapter
    ghost var states: seq<State>
    ghost var inputs: seq<Input>

    /** The object's state is the last one of the run recorded so far. */
    ghost predicate Valid()
      reads this, adapter
    {
      IsRun(states, inputs) && states[|inputs|] == adapter.View()
    }

    constructor ()
      ensures Valid() && fresh(adapter) && inputs == []
    {
      adapter := new Adapter();
      states, inputs := [Init()], [];
    }

    method Step(i: Input)
      requires Valid() && Arrives(adapter.View(), i)
      modifies this, adapter
      ensures Valid()
      ensures |inputs| == |old(inputs)| + 1 && inputs[..|old(inputs)|] == old(inputs)
      ensures states == old(states) + [adapter.View()]
      ensures inputs[|old(inputs)|].env == i.env && SameButChoice(i.event, inputs[|old(inputs)|].event)
    {
      RunStaysBounded(states, inputs, |inputs|);
      var taken := Dispatch(adapter, i);
      RunExtends(states, inputs, Input(i.env, taken));
      states, inputs := states + [adapter.View()], inputs + [Input(i.env, taken)];
    }
  }
}
