/**
 Runs of the publisher against connections that come and go: whatever the server had before, the
 messages of one connection leave it with exactly the snapshot that was published last.
 */
module DeltaProofs {
  import opened Basics
  import opened DeltaModel
  import opened DeltaPublisher

  /** A dropped connection resets the baseline before the next one is made. */
  datatype Link = Down | Up | Dropped

  /** `sent` are the messages accepted for the current connection, in order. */
  datatype World = World(baseline: Baseline, link: Link, sent: seq<Message>)

  datatype Event =
    | Publishing(snapshot: Snapshot, flat: Flat, forceFull: bool, accepted: bool, outcome: Outcome,
        message: Option<Message>)
    | Dropping
    | Resetting
    | Connecting

  function Start(): World {
    World(Baseline(None, "", 0), Down, [])
  }

  ghost predicate Step(w: World, e: Event, v: World) {
    match e
    case Publishing(snapshot, flat, forceFull, accepted, outcome, message) =>
      && Flattens(snapshot, flat)
      && Publishes(w.baseline, snapshot, flat, forceFull, w.link.Up?, accepted, v.baseline, outcome, message)
      && v.link == w.link && v.sent == (if message.Some? then w.sent + [message.value] else w.sent)
    case Dropping => w.link.Up? && v == w.(link := Dropped)
    case Resetting => v == w.(baseline := w.baseline.(flat := None), link := if w.link.Dropped? then Down else w.link)
    case Connecting => w.link.Down? && v == w.(link := Up, sent := [])
  }

  ghost predicate IsRun(ws: seq<World>, es: seq<Event>) {
    |ws| == |es| + 1 && ws[0] == Start() && forall k: nat | k < |es| :: StepAt(ws, es, k)
  }

  ghost predicate StepAt(ws: seq<World>, es: seq<Event>, k: nat)
    requires |ws| == |es| + 1 && k < |es|
  {
    Step(ws[k], es[k], ws[k + 1])
  }

  /** Every published snapshot has hash names without dots. */
  ghost predicate DotFreeRun(es: seq<Event>) {
    forall k | 0 <= k < |es| && es[k].Publishing? :: DotFreeHashes(es[k].snapshot)
  }

  // ---- the replica ----

  /** The baseline is what the server has, whatever it had before this connection. */
  ghost predicate Agrees(w: World) {
    && (w.link.Down? ==> w.baseline.flat.None?)
    && (w.link.Up? && w.baseline.flat.Some? ==>
          && (forall prior :: Replay(prior, w.sent) == w.baseline.flat.value)
          && (forall p | p in w.baseline.flat.value :: Dotted(p)))
  }

  lemma ReplayLast(prior: Flat, messages: seq<Message>, m: Message)
    ensures Replay(prior, messages + [m]) == Apply(Replay(prior, messages), m)
  {
    assert (messages + [m])[..|messages|] == messages;
  }

  lemma DeltaIsApplied(before: Flat, now: Flat, m: Message)
    requires IsDelta(m, before, now) && (forall p | p in now :: Dotted(p))
    ensures Apply(before, m) == now
  {
    FlattenInvertsNest(Changed(before, now), m.changes);
    DeltaMerges(before, now, Flatten(m.changes), m.removed);
  }

  lemma DeltaMerges(before: Flat, now: Flat, changes: Flat, removed: seq<string>)
    requires changes == Changed(before, now) && (forall p :: p in removed <==> p in before && p !in now)
    ensures (before + changes) - (set p | p in removed) == now
  {
    assert (set p | p in removed) == before.Keys - now.Keys;
    DifferenceLeadsToNew(before, now, set p | p in removed);
  }

  lemma FlatIsDotted(state: Snapshot)
    ensures forall p | p in Flatten(state) :: Dotted(p)
  {
  }

  lemma StepAgrees(w: World, e: Event, v: World)
    requires Agrees(w) && Step(w, e, v) && (e.Publishing? ==> DotFreeHashes(e.snapshot))
    ensures Agrees(v)
    ensures e.Publishing? && w.link.Up? && !e.outcome.Failed? ==> v.baseline.flat == Some(Flatten(e.snapshot))
  {
    if e.Publishing? {
      FlatFormIsUnique(e.snapshot, e.flat);
      FlatIsDotted(e.snapshot);
      if e.message.Some? {
        forall prior
          ensures Replay(prior, v.sent) == e.flat
        {
          ReplayLast(prior, w.sent, e.message.value);
          if e.message.value.Delta? {
            DeltaIsApplied(w.baseline.flat.value, e.flat, e.message.value);
          }
        }
      }
    }
  }

  lemma {:induction false} RunAgrees(ws: seq<World>, es: seq<Event>, j: nat)
    requires IsRun(ws, es) && DotFreeRun(es) && j < |ws|
    ensures Agrees(ws[j])
  {
    if j > 0 {
      RunAgrees(ws, es, j - 1);
      assert StepAt(ws, es, j - 1);
      StepAgrees(ws[j - 1], es[j - 1], ws[j]);
    }
  }

  /** After every publication that succeeds while connected, the server has exactly that snapshot. */
  lemma ServerReplicaAgrees(ws: seq<World>, es: seq<Event>, k: nat, prior: Flat)
    requires IsRun(ws, es) && DotFreeRun(es) && k < |es|
    requires es[k].Publishing? && ws[k].link.Up? && !es[k].outcome.Failed?
    ensures Replay(prior, ws[k + 1].sent) == Flatten(es[k].snapshot)
  {
    RunAgrees(ws, es, k);
    assert StepAt(ws, es, k);
    StepAgrees(ws[k], es[k], ws[k + 1]);
  }

  // ---- full states come often enough ----

  ghost predicate AllDeltas(sent: seq<Message>, i: nat, j: nat)
    requires j <= |sent|
  {
    forall k | i <= k < j :: sent[k].Delta?
  }

  /** A connection starts with a full state, and at most twenty deltas follow one another. */
  ghost predicate Resynced(w: World) {
    && w.baseline.sinceFull <= FULL_RESYNC_EVERY
    && (w.link.Down? ==> w.baseline.flat.None?)
    && (w.link.Up? && w.baseline.flat.Some? ==> w.sent != [])
    && (w.sent != [] ==> w.sent[0].Full?)
    && (forall i: nat, j: nat | i <= j <= |w.sent| && AllDeltas(w.sent, i, j) ::
          j - i <= FULL_RESYNC_EVERY && (j == |w.sent| ==> j - i <= w.baseline.sinceFull))
  }

  lemma StepResyncs(w: World, e: Event, v: World)
    requires Resynced(w) && Step(w, e, v)
    ensures Resynced(v)
  {
    if e.Publishing? && e.message.Some? {
      assert forall k | 0 <= k < |w.sent| :: v.sent[k] == w.sent[k];
      forall i: nat, j: nat | i <= j <= |v.sent| && AllDeltas(v.sent, i, j)
        ensures j - i <= FULL_RESYNC_EVERY && (j == |v.sent| ==> j - i <= v.baseline.sinceFull)
      {
        var m := if j == |v.sent| && i < j then j - 1 else j;
        if m <= |w.sent| {
          assert forall k | i <= k < m :: v.sent[k].Delta?;
          assert AllDeltas(w.sent, i, m);
        }
        if j == |v.sent| && i < j {
          assert v.sent[j - 1] == e.message.value;
        }
      }
    }
  }

  /** In every connection, at most twenty deltas separate two full states, and the first message is one. */
  lemma {:induction false} FullStatesAreFrequent(ws: seq<World>, es: seq<Event>, n: nat)
    requires IsRun(ws, es) && n < |ws|
    ensures Resynced(ws[n])
  {
    if n > 0 {
      FullStatesAreFrequent(ws, es, n - 1);
      assert StepAt(ws, es, n - 1);
      StepResyncs(ws[n - 1], es[n - 1], ws[n]);
    }
  }

  // ---- what is sent when ----

  /** The step before state `k` whose snapshot the server has, unless the baseline was given up since. */
  function Known(es: seq<Event>, k: nat): (j: Option<nat>)
    requires k <= |es|
    ensures j.Some? ==> j.value < k && es[j.value].Publishing?
  {
    if k == 0 then None
    else match es[k - 1]
      case Publishing(_, _, _, _, outcome, message) =>
        if message.Some? then Some(k - 1) else if outcome == Buffered then None else Known(es, k - 1)
      case Resetting => None
      case _ => Known(es, k - 1)
  }

  /** How many deltas were accepted since the last full state. */
  function DeltasSinceFull(es: seq<Event>, k: nat): nat
    requires k <= |es|
  {
    if k == 0 then 0
    else if es[k - 1].Publishing? && es[k - 1].message.Some? then
      if es[k - 1].message.value.Full? then 0 else DeltasSinceFull(es, k - 1) + 1
    else DeltasSinceFull(es, k - 1)
  }

  /** The baseline is the flat form and the vehicle state of the snapshot that the server has. */
  lemma {:induction false} BaselineIsKnown(ws: seq<World>, es: seq<Event>, k: nat)
    requires IsRun(ws, es) && k <= |es|
    ensures var b := ws[k].baseline;
            && b.flat == (if Known(es, k).Some? then Some(es[Known(es, k).value].flat) else None)
            && (Known(es, k).Some? ==> b.vehicleState == StateOf(es[Known(es, k).value].snapshot))
            && b.sinceFull == DeltasSinceFull(es, k)
  {
    if k > 0 {
      BaselineIsKnown(ws, es, k - 1);
      assert StepAt(ws, es, k - 1);
    }
  }

  /** The vehicle's state is the field of that name, if the snapshot has it. */
  lemma StateIsField(s: Snapshot)
    ensures StateOf(s) == if Has(s, "vehicle", "state") then s["vehicle"].fields["state"] else ""
  {
  }

  /** A full state is due: asked for, nothing known to the server, another vehicle state, or twenty deltas since. */
  predicate FullIsDue(es: seq<Event>, k: nat)
    requires k < |es| && es[k].Publishing?
  {
    || es[k].forceFull || Known(es, k).None? || DeltasSinceFull(es, k) >= 20
    || StateOf(es[Known(es, k).value].snapshot) != StateOf(es[k].snapshot)
  }

  /**
   In every run, a publication while connected sends the whole snapshot exactly when a full state is due, and
   otherwise a delta exactly when the flat form differs from what the server has. Unless it is accepted it counts as
   failed. While disconnected it is buffered.
   */
  lemma WhatIsSent(ws: seq<World>, es: seq<Event>, k: nat)
    requires IsRun(ws, es) && k < |es| && es[k].Publishing?
    ensures var e := es[k];
            var full := FullIsDue(es, k);
            var same := Known(es, k).Some? && es[Known(es, k).value].flat == e.flat;
            if !ws[k].link.Up? then e.outcome == Buffered && e.message == None
            else if full then
              if e.accepted then e.outcome == SentFull && e.message == Some(Full(e.snapshot))
              else e.outcome == Failed && e.message == None
            else if same then e.outcome == Unchanged && e.message == None
            else if e.accepted then e.outcome == SentDelta && e.message.Some? && e.message.value.Delta?
            else e.outcome == Failed && e.message == None
  {
    assert StepAt(ws, es, k);
    BaselineIsKnown(ws, es, k);
  }
}
