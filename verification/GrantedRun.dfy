/**
 A run, at any one instant, in which a connection comes up, the journal is found idle, an activity is
 accepted and a grant comes into force; the concrete runs elsewhere start from it.
 */
module GrantedRun {
  import opened Basics
  import opened Messages
  import opened AdapterModel
  import opened AdapterRuns
  import opened SourceProofs
  import opened Service

  /** Some run, with all its GPS timestamps in `T`, ends in this state. */
  ghost predicate Reaches(T: iset<Time>, s: State) {
    exists ss, es :: IsRun(ss, es) && StampedFrom(T, es) && ss[|es|] == s
  }

  lemma InitIsReachable(T: iset<Time>)
    ensures Reaches(T, Init())
  {
    assert IsRun([Init()], []);
  }

  lemma ReachStep(T: iset<Time>, s: State, i: Input)
    requires Reaches(T, s) && Enabled(s, i) && StampedFrom(T, [i])
    ensures Reaches(T, Next(s, i))
  {
    var ss, es :| IsRun(ss, es) && StampedFrom(T, es) && ss[|es|] == s;
    RunExtends(ss, es, i);
    var tt, fs := ss + [Next(s, i)], es + [i];
    assert [i][0] == i;
    assert StampedFrom(T, fs);
    assert tt[|fs|] == Next(s, i);
  }

  function At(noon: Time): Env {
    Env(noon, true)
  }

  const IDLE := LocalStop(None, 1, Idle, false, None, None, "p")
  const ACTIVE := Activity("boot", 1, true, Some("s"), Some("m"), "q")

  function Lease(action: Action, stream: Id, epoch: int, peers: seq<Id>): Control {
    Control("c", action, Some("s"), Some("m"), 1, epoch, Some(stream), "q", 10000, Some(1000), peers, 0, None, None,
        None)
  }

  function Connecting(): State {
    Init().(link := Link(None, "", true, 1))
  }

  function Connected(): State {
    Init().(link := Link(Some(1), "c", false, 1), journal := Init().journal.(epoch := 1),
            source := Init().source.(generation := 2))
  }

  function Probed(noon: Time, phase: LoopPhase): State {
    var pub := RedisPub(0, ProbeMsg("p"), noon, noon + ATTEMPT_LIFETIME);
    Connected().(phase := phase,
                 journal := Connected().journal.(
                   probes := map["p" := Probe("p", "c", noon, noon + ATTEMPT_LIFETIME, Reconcile, "", 0, None, 1)],
                   probeTimes := [noon]),
                 consent := Connected().consent.(settingsReady := true),
                 redis := RedisEgress(1, [pub], None),
                 log := Connected().log.(queued := [pub]))
  }

  function IdleState(noon: Time): State {
    Probed(noon, Serving).(journal := Probed(noon, Serving).journal.(
                       probes := map[], used := map["p" := IDLE], state := Some(IDLE), ready := true))
  }

  function ActiveState(noon: Time): State {
    IdleState(noon).(consent := IdleState(noon).consent.(
                   activity := Some(ACTIVE), activityAt := noon, boot := "boot", bootSeq := 1,
                       challenges := map["q" := noon]),
                 log := IdleState(noon).log.(notices := [Live(1, "c", HelloPub("q"), noon + ATTEMPT_LIFETIME),
                                                     Live(1, "c", ActivityPub("boot", 1, true), noon + 5 * SECOND)]))
  }

  lemma ConnectedIsReachable(T: iset<Time>, noon: Time)
    requires noon > 0
    ensures Reaches(T, Connected())
  {
    InitIsReachable(T);
    ReachStep(T, Init(), Input(At(noon), ConnectBegin(1)));
    assert Next(Init(), Input(At(noon), ConnectBegin(1))) == Connecting();
    ReachStep(T, Connecting(), Input(At(noon), ConnectFinish(1, 1, Some("c"), None, None)));
    assert Next(Connecting(), Input(At(noon), ConnectFinish(1, 1, Some("c"), None, None))) == Connected();
  }

  lemma ProbedIsReachable(T: iset<Time>, noon: Time)
    requires noon > 0
    ensures Reaches(T, Probed(noon, Serving))
  {
    ConnectedIsReachable(T, noon);
    var recovering := Connected().(phase := Recovering);
    ReachStep(T, Connected(), Input(At(noon), RecoveryBegin));
    assert Next(Connected(), Input(At(noon), RecoveryBegin)) == recovering;
    ReachStep(T, recovering, Input(At(noon), Refresh(false, None, Some("p"), None)));
    assert Next(recovering, Input(At(noon), Refresh(false, None, Some("p"), None))) == Probed(noon, Recovering);
    ReachStep(T, Probed(noon, Recovering), Input(At(noon), RecoveryDone(None)));
    assert FreshProbes(Probed(noon, Serving), noon) == Probed(noon, Serving).journal.probes;
    assert Next(Probed(noon, Recovering), Input(At(noon), RecoveryDone(None))) == Probed(noon, Serving);
  }

  lemma IdleIsReachable(T: iset<Time>, noon: Time)
    requires noon > 0
    ensures Reaches(T, IdleState(noon))
  {
    ProbedIsReachable(T, noon);
    ReachStep(T, Probed(noon, Serving), Input(At(noon), SnapshotIn(IDLE, "", None)));
    assert Next(Probed(noon, Serving), Input(At(noon), SnapshotIn(IDLE, "", None))) == IdleState(noon);
  }

  lemma OneChallenge(m: map<Id, Time>, noon: Time)
    requires m == map["q" := noon]
    ensures OldestChallenge(m, noon, "") && PruneChallenges(m, noon, "") == m
  {
    var recent := map c | c in m && noon - m[c] < LEASE_DURATION :: m[c];
    assert recent == m && |m| == 1;
  }

  lemma ActiveIsReachable(T: iset<Time>, noon: Time)
    requires noon > 0
    ensures Reaches(T, ActiveState(noon))
  {
    IdleIsReachable(T, noon);
    OneChallenge(IdleState(noon).consent.challenges["q" := noon], noon);
    ReachStep(T, IdleState(noon), Input(At(noon), ActivityIn(ACTIVE, "")));
    assert Next(IdleState(noon), Input(At(noon), ActivityIn(ACTIVE, ""))) == ActiveState(noon);
  }

  function Granted(noon: Time, peers: seq<Id>): State {
    var pub := RedisPub(1, ControlMsg(Lease(Grant, "x", 1, peers)), noon, noon + LEASE_DURATION);
    ActiveState(noon).(consent := ActiveState(noon).consent.(
                     grant := Some(Lease(Grant, "x", 1, peers)), lastAuthority := Some(Lease(Grant, "x", 1, peers)),
                     grantAt := noon, grantTTL := LEASE_DURATION, grantActive := true, cadence := SECOND),
                   source := ActiveState(noon).source.(generation := 3),
                   peers := Peers("s", map[]),
                   redis := RedisEgress(2, ActiveState(noon).redis.queue + [pub], None),
                   log := ActiveState(noon).log.(queued := ActiveState(noon).log.queued + [pub]))
  }

  lemma GrantedIsReachable(T: iset<Time>, noon: Time, peers: seq<Id>)
    requires noon > 0 && |peers| <= 5
    ensures Reaches(T, Granted(noon, peers))
  {
    ActiveIsReachable(T, noon);
    var i := Input(At(noon), ControlIn(Lease(Grant, "x", 1, peers), None));
    ReachStep(T, ActiveState(noon), i);
    assert Next(ActiveState(noon), i) == Granted(noon, peers);
  }
}
