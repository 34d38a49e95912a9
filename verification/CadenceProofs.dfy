/**
 How far positions are apart: while a grant is held without a break, any two positions are at least as far apart
 as the cadence that the later one was granted, and never less than a second.
 */
module CadenceProofs {
  import opened Basics
  import opened Messages
  import opened AdapterModel
  import opened AdapterRuns
  import opened ConsentProofs
  import opened SourceProofs
  import opened Vocabulary
  import opened ReplyResponses
  import opened ConsentResponses

  /** The cadence a grant allows: as it says, but at least a second. */
  function Granted(c: Control): int {
    if c.cadenceMs.Some? then Largest(SECOND, c.cadenceMs.value * MILLISECOND) else SECOND
  }

  predicate PaceInv(s: State) {
    && s.source.lastPositionAt >= 0
    && (s.consent.grant.Some? ==> s.consent.cadence == Granted(s.consent.grant.value))
  }

  /** The step queues a position; a cadence has passed since the last one under this grant. */
  predicate Paces(s: State, t: State, now: Time) {
    && t.consent == s.consent && t.source.lastPositionAt == now
    && (s.source.lastPositionAt == 0 || now >= s.source.lastPositionAt + s.consent.cadence)
  }

  /** What a step does to the time of the last position: with a grant still held, it stays or a position is queued. */
  predicate PaceMove(s: State, i: Input, t: State) {
    if t.consent.grant.None? then t.source.lastPositionAt in {0, s.source.lastPositionAt, i.env.now}
    else
      && (t.source.lastPositionAt == s.source.lastPositionAt || Paces(s, t, i.env.now))
      && ((s.consent.grant.Some? && t.consent.grant == s.consent.grant && t.consent.cadence == s.consent.cadence)
          || t.consent.cadence == Granted(t.consent.grant.value))
  }

  /** A fix either queues a position, a cadence after the last one, or leaves the time of the last one. */
  predicate FeedPaces(s: State, t: State, now: Time) {
    || Paces(s, t, now)
    || (&& t.consent == s.consent && t.source.lastPositionAt == s.source.lastPositionAt
        && (t.log.feed == s.log.feed ||
            (|t.log.feed| > |s.log.feed| && !t.log.feed[|t.log.feed| - 1].pub.PositionPub?)))
  }

  lemma LossPaces(s: State, env: Env)
    ensures FeedPaces(s, LoseFix(s, env), env.now)
  {
  }

  lemma FixPaces(s: State, env: Env, captured: Time)
    ensures FeedPaces(s, OnFix(s, env, captured), env.now)
  {
  }

  lemma GpsPaces(s: State, env: Env, captured: Option<Time>, fixOk: bool)
    ensures FeedPaces(s, OnGps(s, env, captured, fixOk), env.now)
  {
    LossPaces(s, env);
    if captured.Some? {
      var s1 := s.(source := s.source.(observedAt := captured.value));
      LossPaces(s1, env);
      FixPaces(s1, env, captured.value);
      assert OnGps(s, env, captured, fixOk) in {s, LoseFix(s, env), LoseFix(s1, env), OnFix(s1, env, captured.value)};
    }
  }

  lemma ControlPaces(s: State, env: Env, c: Control, id: Option<Id>)
    requires ValidControl(c)
    ensures PaceMove(s, Input(env, ControlIn(c, id)), OnControl(s, env, c, id))
  {
  }

  lemma RefreshPaces(s: State, env: Env, blocked: bool, hello: Option<Id>, first: Option<Id>, second: Option<Id>)
    ensures PaceMove(s, Input(env, Refresh(blocked, hello, first, second)),
                     OnRefresh(s, env, blocked, hello, first, second))
  {
  }

  lemma SnapshotPaces(s: State, env: Env, st: LocalStop, evict: Id, id: Option<Id>)
    ensures PaceMove(s, Input(env, SnapshotIn(st, evict, id)), OnSnapshot(s, env, st, evict, id))
  {
  }

  lemma OthersPace(s: State, i: Input)
    requires Enabled(s, i) && !i.event.GpsIn? && !i.event.ControlIn? && !i.event.Refresh? && !i.event.SnapshotIn?
    ensures PaceMove(s, i, Next(s, i))
  {
  }

  lemma NextPace(s: State, i: Input)
    requires Enabled(s, i)
    ensures PaceMove(s, i, Next(s, i))
  {
    match i.event
    case GpsIn(captured, fixOk) => GpsPaces(s, i.env, captured, fixOk);
    case ControlIn(c, id) => ControlPaces(s, i.env, c, id);
    case Refresh(blocked, hello, first, second) => RefreshPaces(s, i.env, blocked, hello, first, second);
    case SnapshotIn(st, evict, id) => SnapshotPaces(s, i.env, st, evict, id);
    case _ => OthersPace(s, i);
  }

  /** Only a fix queues a position, and then a cadence has passed. */
  lemma PositionPaces(s: State, i: Input, pub: MqttPub)
    requires Enabled(s, i) && QueuesPositionAt(s, Next(s, i), pub)
    ensures Paces(s, Next(s, i), i.env.now)
  {
    NextFeed(s, i);
    match i.event
    case GpsIn(captured, fixOk) => GpsPaces(s, i.env, captured, fixOk);
    case _ =>
  }

  // ---- over every run ----

  ghost predicate PaceAt(ss: seq<State>, es: seq<Input>, k: nat)
    requires |ss| == |es| + 1 && k < |es|
  {
    es[k].env.now > 0 && PaceMove(ss[k], es[k], ss[k + 1])
  }

  ghost predicate PaceTrace(ss: seq<State>, es: seq<Input>) {
    |ss| == |es| + 1 && PaceInv(ss[0]) && forall k: nat | k < |es| :: PaceAt(ss, es, k)
  }

  lemma RunIsPaceTrace(ss: seq<State>, es: seq<Input>)
    requires IsRun(ss, es)
    ensures PaceTrace(ss, es)
  {
    forall k: nat | k < |es|
      ensures PaceAt(ss, es, k)
    {
      assert StepAt(ss, es, k);
      NextPace(ss[k], es[k]);
    }
  }

  lemma {:induction false} RunKeepsPace(ss: seq<State>, es: seq<Input>, j: nat)
    requires PaceTrace(ss, es) && j < |ss|
    ensures PaceInv(ss[j])
  {
    if j > 0 {
      RunKeepsPace(ss, es, j - 1);
      assert PaceAt(ss, es, j - 1);
    }
  }

  /** A grant is held in every state after step `i` up to step `j`. */
  ghost predicate HeldBetween(ss: seq<State>, i: nat, j: nat)
    requires j < |ss|
  {
    forall k: nat | i < k <= j :: ss[k].consent.grant.Some?
  }

  /** Without a break in the grant the time of the last position never falls behind an earlier one. */
  lemma {:induction false} LastPositionStays(ss: seq<State>, es: seq<Input>, i: nat, j: nat)
    requires PaceTrace(ss, es) && i < j < |ss| && HeldBetween(ss, i, j)
    requires ss[i + 1].source.lastPositionAt > 0
    ensures ss[j].source.lastPositionAt >= ss[i + 1].source.lastPositionAt
  {
    if j > i + 1 {
      assert forall k: nat | i < k <= j - 1 :: ss[k].consent.grant.Some?;
      LastPositionStays(ss, es, i, j - 1);
      RunKeepsPace(ss, es, j - 1);
      assert PaceAt(ss, es, j - 1) && ss[j - 1].consent.grant.Some?;
    }
  }

  /**
   In every run, two positions queued while a grant is held without a break are apart by at least the cadence of
   the grant held for the later one, and by at least a second. The clock may do what it likes.
   */
  lemma PositionsKeepTheCadence(ss: seq<State>, es: seq<Input>, i: nat, j: nat, a: MqttPub, b: MqttPub)
    requires IsRun(ss, es) && i < j < |es| && HeldBetween(ss, i, j)
    requires QueuesPositionAt(ss[i], ss[i + 1], a) && QueuesPositionAt(ss[j], ss[j + 1], b)
    ensures ss[j].consent.grant.Some? && ss[j].consent.grant.value.cadenceMs.Some?
    ensures es[j].env.now - es[i].env.now >= SECOND
    ensures es[j].env.now - es[i].env.now >= ss[j].consent.grant.value.cadenceMs.value * MILLISECOND
  {
    assert StepAt(ss, es, i) && StepAt(ss, es, j);
    PositionPaces(ss[i], es[i], a);
    PositionPaces(ss[j], es[j], b);
    RunIsPaceTrace(ss, es);
    LastPositionStays(ss, es, i, j);
    RunKeepsPace(ss, es, j);
    RunKeepsConsent(ss, es, j);
  }
}
