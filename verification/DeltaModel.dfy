/**
 Telemetry states, their flat form (one entry per `hash.field` path), differences between flat
 states, and what a server makes of the messages it receives.
 */
module DeltaModel {
  import opened Basics

  /** A hash of fields, or some other value that telemetry skips. */
  datatype Node = Hash(fields: map<string, string>) | Scalar(text: string)

  type Snapshot = map<string, Node>
  type Flat = map<string, string>

  // ---- paths ----

  predicate DotFree(s: string) {
    '.' !in s
  }

  function Join(hash: string, field: string): string {
    hash + "." + field
  }

  /** Position of the first dot at or after `from`, or the length if there is none. */
  function DotFrom(path: string, from: nat): (k: nat)
    requires from <= |path|
    ensures from <= k <= |path| && (k < |path| ==> path[k] == '.') && DotFree(path[from..k])
    decreases |path| - from
  {
    if from == |path| || path[from] == '.' then from else DotFrom(path, from + 1)
  }

  predicate Dotted(path: string) {
    DotFrom(path, 0) < |path|
  }

  function HashOf(path: string): string {
    path[..DotFrom(path, 0)]
  }

  function FieldOf(path: string): string
    requires Dotted(path)
  {
    path[DotFrom(path, 0) + 1..]
  }

  lemma SplitInvertsJoin(hash: string, field: string)
    requires DotFree(hash)
    ensures Dotted(Join(hash, field)) && HashOf(Join(hash, field)) == hash && FieldOf(Join(hash, field)) == field
  {
    FirstDotEndsHash(hash, field, 0);
  }

  lemma {:induction false} FirstDotEndsHash(hash: string, field: string, from: nat)
    requires DotFree(hash) && from <= |hash|
    ensures DotFrom(Join(hash, field), from) == |hash|
    decreases |hash| - from
  {
    if from < |hash| {
      assert Join(hash, field)[from] == hash[from];
      FirstDotEndsHash(hash, field, from + 1);
    }
  }

  lemma JoinInvertsSplit(path: string)
    requires Dotted(path)
    ensures DotFree(HashOf(path)) && Join(HashOf(path), FieldOf(path)) == path
  {
    assert path[0..DotFrom(path, 0)] == HashOf(path);
  }

  // ---- flattening and nesting ----

  /** The state has a value for this field of this hash. */
  predicate Has(state: Snapshot, hash: string, field: string) {
    hash in state && state[hash].Hash? && field in state[hash].fields
  }

  /**
   What the flattening loop can produce: one entry for every path there is, with a value that some
   field at that path has. Hash names with dots can make two fields share a path.
   */
  ghost predicate Flattens(state: Snapshot, flat: Flat) {
    && (forall hash, field | Has(state, hash, field) :: Join(hash, field) in flat)
    && (forall path | path in flat :: exists hash, field ::
          Has(state, hash, field) && path == Join(hash, field) && flat[path] == state[hash].fields[field])
  }

  ghost predicate DotFreeHashes(state: Snapshot) {
    forall hash | hash in state :: DotFree(hash)
  }

  /** The flat form of a state whose hash names have no dots. */
  ghost function Flatten(state: Snapshot): Flat {
    map path | path in AllPaths(state) && Dotted(path) && Has(state, HashOf(path), FieldOf(path)) ::
      state[HashOf(path)].fields[FieldOf(path)]
  }

  ghost function AllPaths(state: Snapshot): set<string> {
    set hash, field | hash in state && field in FieldsOf(state[hash]) :: Join(hash, field)
  }

  function FieldsOf(node: Node): map<string, string> {
    if node.Hash? then node.fields else map[]
  }

  lemma FlattenHas(state: Snapshot, path: string)
    ensures path in Flatten(state) <==> Dotted(path) && Has(state, HashOf(path), FieldOf(path))
  {
    if Dotted(path) && Has(state, HashOf(path), FieldOf(path)) {
      JoinInvertsSplit(path);
      assert HashOf(path) in state && FieldOf(path) in FieldsOf(state[HashOf(path)]);
    }
  }

  predicate SameAt(a: Flat, b: Flat, path: string) {
    (path in a <==> path in b) && (path in a && path in b ==> a[path] == b[path])
  }

  lemma SameEverywhere(a: Flat, b: Flat)
    requires forall path :: SameAt(a, b, path)
    ensures a == b
  {
    assert forall path :: SameAt(a, b, path) ==> (path in a <==> path in b);
  }

  /** With dot-free hash names, whatever the loop produces is the flat form. */
  lemma FlatFormIsUnique(state: Snapshot, flat: Flat)
    requires DotFreeHashes(state) && Flattens(state, flat)
    ensures flat == Flatten(state)
  {
    forall path
      ensures SameAt(flat, Flatten(state), path)
    {
      FlatFormAt(state, flat, path);
    }
    SameEverywhere(flat, Flatten(state));
  }

  lemma FlatFormAt(state: Snapshot, flat: Flat, path: string)
    requires DotFreeHashes(state) && Flattens(state, flat)
    ensures SameAt(flat, Flatten(state), path)
  {
    FlattenHas(state, path);
    if path in flat {
      SplitFlattened(state, flat, path);
    } else if path in Flatten(state) {
      JoinInvertsSplit(path);
    }
  }

  lemma SplitFlattened(state: Snapshot, flat: Flat, path: string)
    requires DotFreeHashes(state) && Flattens(state, flat) && path in flat
    ensures Dotted(path) && Has(state, HashOf(path), FieldOf(path))
            && flat[path] == state[HashOf(path)].fields[FieldOf(path)]
  {
    var hash, field :| Has(state, hash, field) && path == Join(hash, field) && flat[path] == state[hash].fields[field];
    SplitInvertsJoin(hash, field);
  }

  /** `state` holds a field exactly for every dotted path of `flat`, split at its first dot. */
  ghost predicate Nests(flat: Flat, state: Snapshot) {
    && DotFreeHashes(state)
    && (forall path | path in flat && Dotted(path) ::
          Has(state, HashOf(path), FieldOf(path)) && state[HashOf(path)].fields[FieldOf(path)] == flat[path])
    && (forall hash, field | Has(state, hash, field) :: Join(hash, field) in flat)
  }

  /** Sets one field, in a new hash if there is none of that name. */
  function SetField(state: Snapshot, hash: string, field: string, value: string): Snapshot {
    state[hash := Hash((if hash in state then FieldsOf(state[hash]) else map[])[field := value])]
  }

  lemma SetFieldHas(state: Snapshot, hash: string, field: string, value: string, h: string, f: string)
    ensures var t := SetField(state, hash, field, value);
            if h == hash && f == field then Has(t, h, f) && t[h].fields[f] == value
            else (Has(t, h, f) <==> Has(state, h, f)) && (Has(state, h, f) ==> t[h].fields[f] == state[h].fields[f])
  {
  }

  /** `out` nests the entries of `flat` whose paths are not in `rest`. */
  ghost predicate NestsSoFar(flat: Flat, rest: set<string>, out: Snapshot) {
    && DotFreeHashes(out)
    && (forall path | path in flat && path !in rest && Dotted(path) ::
          Has(out, HashOf(path), FieldOf(path)) && out[HashOf(path)].fields[FieldOf(path)] == flat[path])
    && (forall hash, field | Has(out, hash, field) :: Join(hash, field) in flat)
  }

  lemma NestOneMore(flat: Flat, rest: set<string>, out: Snapshot, path: string)
    requires NestsSoFar(flat, rest, out) && path in flat && path in rest && Dotted(path)
    ensures NestsSoFar(flat, rest - {path}, SetField(out, HashOf(path), FieldOf(path), flat[path]))
  {
    var t := SetField(out, HashOf(path), FieldOf(path), flat[path]);
    JoinInvertsSplit(path);
    forall p | p in flat && p !in rest - {path} && Dotted(p)
      ensures Has(t, HashOf(p), FieldOf(p)) && t[HashOf(p)].fields[FieldOf(p)] == flat[p]
    {
      JoinInvertsSplit(p);
      SetFieldHas(out, HashOf(path), FieldOf(path), flat[path], HashOf(p), FieldOf(p));
    }
    forall hash, field | Has(t, hash, field)
      ensures Join(hash, field) in flat
    {
      SetFieldHas(out, HashOf(path), FieldOf(path), flat[path], hash, field);
    }
  }

  /** Flattening undoes nesting. */
  lemma FlattenInvertsNest(flat: Flat, state: Snapshot)
    requires Nests(flat, state) && forall path | path in flat :: Dotted(path)
    ensures Flatten(state) == flat
  {
    forall path
      ensures SameAt(Flatten(state), flat, path)
    {
      NestedAt(flat, state, path);
    }
    SameEverywhere(Flatten(state), flat);
  }

  lemma NestedAt(flat: Flat, state: Snapshot, path: string)
    requires Nests(flat, state) && (path in flat ==> Dotted(path))
    ensures SameAt(Flatten(state), flat, path)
  {
    FlattenHas(state, path);
    if path in Flatten(state) {
      JoinInvertsSplit(path);
    }
  }

  // ---- differences ----

  function Changed(before: Flat, now: Flat): Flat {
    map k | k in now && (k !in before || before[k] != now[k]) :: now[k]
  }

  /** Merging the changes and deleting what was removed leads from the old state to the new one. */
  lemma DifferenceLeadsToNew(before: Flat, now: Flat, removed: set<string>)
    requires removed == before.Keys - now.Keys
    ensures (before + Changed(before, now)) - removed == now
  {
  }

  lemma NoDifferenceMeansEqual(before: Flat, now: Flat)
    requires Changed(before, now) == map[] && before.Keys - now.Keys == {}
    ensures before == now
  {
    forall k | k in now
      ensures k in before && before[k] == now[k]
    {
      assert k !in Changed(before, now);
    }
    forall k | k in before
      ensures k in now
    {
      assert k !in before.Keys - now.Keys;
    }
  }

  // ---- the server's replica ----

  datatype Message = Full(state: Snapshot) | Delta(changes: Snapshot, removed: seq<string>)

  /** A full state replaces the replica; a delta is merged and its removed paths are deleted. */
  ghost function Apply(replica: Flat, m: Message): Flat {
    match m
    case Full(state) => Flatten(state)
    case Delta(changes, removed) => (replica + Flatten(changes)) - (set p | p in removed)
  }

  /** The replica that the messages, received in order, make of `prior`. */
  ghost function Replay(prior: Flat, messages: seq<Message>): Flat {
    if messages == [] then prior
    else Apply(Replay(prior, messages[..|messages| - 1]), messages[|messages| - 1])
  }
}
