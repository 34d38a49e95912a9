/**
 The telemetry publisher: it keeps the flat form of what the server should have as a baseline, sends
 deltas against it, and falls back to full states. Proved over every interleaving of publications,
 send failures, disconnects and resets: the server's replica agrees with the published snapshot.
 */
module DeltaPublisher {
  import opened Basics
  import opened DeltaModel

  const FULL_RESYNC_EVERY: nat := 20

  /** What the publisher remembers. */
  datatype Baseline = Baseline(flat: Option<Flat>, vehicleState: string, sinceFull: nat)

  datatype Outcome = Buffered | Unchanged | SentFull | SentDelta | Failed

  function StateOf(s: Snapshot): string {
    if "vehicle" in s && s["vehicle"].Hash? && "state" in s["vehicle"].fields then s["vehicle"].fields["state"] else ""
  }

  /** This snapshot goes out as a full state. */
  predicate NeedsFull(b: Baseline, s: Snapshot, forceFull: bool) {
    forceFull || b.flat.None? || StateOf(s) != b.vehicleState || b.sinceFull >= FULL_RESYNC_EVERY
  }

  /** A delta that leads from the flat form `before` to `now`. */
  ghost predicate IsDelta(m: Message, before: Flat, now: Flat) {
    && m.Delta? && Nests(Changed(before, now), m.changes)
    && (forall p :: p in m.removed <==> p in before && p !in now)
  }

  /**
   Publishing snapshot `s`, with flat form `flat`, turns baseline `b` into `c`, with the given outcome
   and message; `connected` and `sent` are the transport's answers.
   */
  ghost predicate Publishes(b: Baseline, s: Snapshot, flat: Flat, forceFull: bool, connected: bool, sent: bool,
                            c: Baseline, outcome: Outcome, message: Option<Message>)
  {
    if !connected then outcome == Buffered && message == None && c == b.(flat := None)
    else if NeedsFull(b, s, forceFull) then
      if sent then outcome == SentFull && message == Some(Full(s)) && c == Baseline(Some(flat), StateOf(s), 0)
      else outcome == Failed && message == None && c == b
    else if flat == b.flat.value then outcome == Unchanged && message == None && c == b
    else if sent then
      && outcome == SentDelta && message.Some? && IsDelta(message.value, b.flat.value, flat)
      && c == Baseline(Some(flat), StateOf(s), b.sinceFull + 1)
    else outcome == Failed && message == None && c == b
  }

  // ---- the object ----

  method FlattenState(state: Snapshot) returns (out: Flat)
    ensures Flattens(state, out)
  {
    out := map[];
    var hashes := state.Keys;
    while hashes != {}
      invariant hashes <= state.Keys
      invariant forall hash, field | Has(state, hash, field) && hash !in hashes :: Join(hash, field) in out
      invariant forall path | path in out :: exists hash, field ::
        Has(state, hash, field) && path == Join(hash, field) && out[path] == state[hash].fields[field]
      decreases |hashes|
    {
      var hash :| hash in hashes;
      hashes := hashes - {hash};
      if state[hash].Hash? {
        out := FlattenHash(state, hash, out);
      }
    }
  }

  /** Adds the fields of one hash to what has been flattened so far. */
  method FlattenHash(state: Snapshot, hash: string, flat: Flat) returns (out: Flat)
    requires hash in state && state[hash].Hash?
    requires forall path | path in flat :: exists h, f ::
        Has(state, h, f) && path == Join(h, f) && flat[path] == state[h].fields[f]
    ensures forall path | path in flat :: path in out
    ensures forall field | field in state[hash].fields :: Join(hash, field) in out
    ensures forall path | path in out :: exists h, f ::
        Has(state, h, f) && path == Join(h, f) && out[path] == state[h].fields[f]
  {
    out := flat;
    var fields := state[hash].fields.Keys;
    while fields != {}
      invariant fields <= state[hash].fields.Keys
      invariant forall path | path in flat :: path in out
      invariant forall field | field in state[hash].fields && field !in fields :: Join(hash, field) in out
      invariant forall path | path in out :: exists h, f ::
          Has(state, h, f) && path == Join(h, f) && out[path] == state[h].fields[f]
      decreases |fields|
    {
      var field :| field in fields;
      fields := fields - {field};
      assert Has(state, hash, field);
      out := out[Join(hash, field) := state[hash].fields[field]];
    }
  }

  method NestFlat(flat: Flat) returns (out: Snapshot)
    ensures Nests(flat, out)
  {
    out := map[];
    var rest := flat.Keys;
    while rest != {}
      invariant rest <= flat.Keys
      invariant NestsSoFar(flat, rest, out)
      decreases |rest|
    {
      var path :| path in rest;
      if Dotted(path) {
        NestOneMore(flat, rest, out, path);
        out := SetField(out, HashOf(path), FieldOf(path), flat[path]);
      }
      rest := rest - {path};
    }
  }

  method DiffFlat(before: Flat, now: Flat) returns (changed: Flat, removed: seq<string>)
    ensures changed == Changed(before, now)
    ensures forall p :: p in removed <==> p in before && p !in now
  {
    changed, removed := map[], [];
    var rest := now.Keys;
    while rest != {}
      invariant rest <= now.Keys
      invariant forall k :: k in changed <==> k in Changed(before, now) && k !in rest
      invariant forall k | k in changed :: changed[k] == now[k]
      decreases |rest|
    {
      var k :| k in rest;
      rest := rest - {k};
      if k !in before || before[k] != now[k] {
        changed := changed[k := now[k]];
      }
    }
    rest := before.Keys;
    while rest != {}
      invariant rest <= before.Keys
      invariant forall p :: p in removed <==> p in before && p !in now && p !in rest
      decreases |rest|
    {
      var k :| k in rest;
      rest := rest - {k};
      if k !in now {
        removed := removed + [k];
      }
    }
  }

  class Publisher {
    var lastSent: Option<Flat>
    var lastVehicleState: string
    var flushesSinceFull: nat

    function View(): Baseline
      reads this
    {
      Baseline(lastSent, lastVehicleState, flushesSinceFull)
    }

    constructor ()
      ensures View() == Baseline(None, "", 0)
    {
      lastSent, lastVehicleState, flushesSinceFull := None, "", 0;
    }

    method ResetBaseline()
      modifies this
      ensures View() == old(View()).(flat := None)
    {
      lastSent := None;
    }

    method Publish(snapshot: Snapshot, forceFull: bool, connected: bool, sent: bool)
      returns (flat: Flat, outcome: Outcome, message: Option<Message>)
      modifies this
      ensures Flattens(snapshot, flat)
      ensures Publishes(old(View()), snapshot, flat, forceFull, connected, sent, View(), outcome, message)
    {
      message := None;
      flat := FlattenState(snapshot);
      var vehicleState := StateOf(snapshot);
      if !connected {
        lastSent := None;
        outcome := Buffered;
        return;
      }
      if forceFull || lastSent.None? || vehicleState != lastVehicleState || flushesSinceFull >= FULL_RESYNC_EVERY {
        if !sent {
          outcome := Failed;
          return;
        }
        lastSent, lastVehicleState, flushesSinceFull := Some(flat), vehicleState, 0;
        outcome, message := SentFull, Some(Full(snapshot));
        return;
      }
      var changed, removed := DiffFlat(lastSent.value, flat);
      if changed == map[] && removed == [] {
        NoDifference(lastSent.value, flat, removed);
        outcome := Unchanged;
        return;
      }
      SomeDifference(lastSent.value, flat, changed, removed);
      if !sent {
        outcome := Failed;
        return;
      }
      var changes := NestFlat(changed);
      lastSent, lastVehicleState, flushesSinceFull := Some(flat), vehicleState, flushesSinceFull + 1;
      outcome, message := SentDelta, Some(Delta(changes, removed));
    }
  }

  lemma NoDifference(before: Flat, now: Flat, removed: seq<string>)
    requires Changed(before, now) == map[] && removed == [] && forall p :: p in removed <==> p in before && p !in now
    ensures before == now
  {
    forall p
      ensures p !in before.Keys - now.Keys
    {
      assert p !in removed;
    }
    NoDifferenceMeansEqual(before, now);
  }

  lemma SomeDifference(before: Flat, now: Flat, changed: Flat, removed: seq<string>)
    requires changed == Changed(before, now) && (forall p :: p in removed <==> p in before && p !in now)
    requires changed != map[] || removed != []
    ensures before != now
  {
    if removed != [] {
      assert removed[0] in removed;
    }
  }
}
