/**
 The adapter's own egress worker: publishers put publications into a latest-only queue and post a
 wake token; the worker drains the queue at each wakeup and, once the adapter is closing, exits as
 soon as it finds the queue empty.
 */
module Egress {
  import opened Basics
  import opened Messages
  import opened AdapterModel
  import opened LatestQueue
  import opened LiveTransport

  datatype Slot = LiveSlot(kind: Kind) | UnsubscribeSlot

  datatype Job = Publication(live: Live) | Unsubscribe(client: nat)

  datatype Worker = Asleep | Draining | Handling(job: Job) | Exited

  datatype Pool = Pool(
    queue: Latest<Slot, Job>, token: bool, posters: nat, closing: bool, worker: Worker, handled: seq<Job>)

  datatype Move =
    | Queue(live: Live)
    | DropPositions
    | DropStatuses
    | PostToken
    | Shut(client: Option<nat>)
    | WakeUp
    | TakeJob(slot: Slot)
    | FindNothing
    | FinishJob

  function Idle(): Pool {
    Pool(Empty(), false, 0, false, Asleep, [])
  }

  ghost predicate CanMove(s: Pool, m: Move) {
    match m
    case PostToken => s.posters > 0
    case WakeUp => s.worker.Asleep? && s.token
    case TakeJob(slot) => s.worker.Draining? && IsOldest(s.queue, slot)
    case FindNothing => s.worker.Draining? && s.queue.pending == map[]
    case FinishJob => s.worker.Handling?
    case Shut(_) => !s.closing
    case _ => true
  }

  ghost function Moved(s: Pool, m: Move): Pool
    requires CanMove(s, m)
  {
    match m
    case Queue(live) =>
      if s.closing then s
      else s.(queue := Put(s.queue, LiveSlot(KindOf(live.pub)), Publication(live)), posters := s.posters + 1)
    case DropPositions => s.(queue := Drop(s.queue, {LiveSlot(PositionKind)}))
    case DropStatuses => s.(queue := Drop(s.queue, {LiveSlot(StatusKind)}))
    case PostToken => s.(token := true, posters := s.posters - 1)
    case Shut(client) =>
      var emptied := s.queue.(pending := map[]);
      s.(closing := true, posters := s.posters + 1,
         queue := if client.Some? then Put(emptied, UnsubscribeSlot, Unsubscribe(client.value)) else emptied)
    case WakeUp => s.(token := false, worker := Draining)
    case TakeJob(slot) => s.(queue := Drop(s.queue, {slot}), worker := Handling(s.queue.pending[slot].item))
    case FindNothing => s.(worker := if s.closing then Exited else Asleep)
    case FinishJob => s.(worker := Draining, handled := s.handled + [s.worker.job])
  }

  ghost predicate IsPoolRun(ss: seq<Pool>, ms: seq<Move>) {
    && |ss| == |ms| + 1 && ss[0] == Idle()
    && forall k | 0 <= k < |ms| :: CanMove(ss[k], ms[k]) && ss[k + 1] == Moved(ss[k], ms[k])
  }

  // ---- no lost wakeup, no overtaking ----

  ghost predicate Attended(s: Pool) {
    && Numbered(s.queue)
    && (s.worker.Exited? ==> s.closing && s.queue.pending == map[])
    && (s.queue.pending != map[] || s.closing ==>
          s.token || s.posters > 0 || s.worker.Draining? || s.worker.Handling? || s.worker.Exited?)
  }

  lemma MoveKeepsAttended(s: Pool, m: Move)
    requires Attended(s) && CanMove(s, m)
    ensures Attended(Moved(s, m))
  {
    match m
    case Queue(live) => PutKeepsNumbered(s.queue, LiveSlot(KindOf(live.pub)), Publication(live));
    case DropPositions => DropKeepsNumbered(s.queue, {LiveSlot(PositionKind)});
    case DropStatuses => DropKeepsNumbered(s.queue, {LiveSlot(StatusKind)});
    case TakeJob(slot) => DropKeepsNumbered(s.queue, {slot});
    case _ =>
  }

  /** In every interleaving a pending publication, or a closing adapter, has the worker's attention. */
  lemma {:induction false} PoolIsAttended(ss: seq<Pool>, ms: seq<Move>, j: nat)
    requires IsPoolRun(ss, ms) && j < |ss|
    ensures Attended(ss[j])
  {
    if j > 0 {
      PoolIsAttended(ss, ms, j - 1);
      MoveKeepsAttended(ss[j - 1], ms[j - 1]);
    }
  }

  ghost predicate StaysQueued(ss: seq<Pool>, i: nat, j: nat, slot: Slot) {
    && i <= j < |ss| && slot in ss[i].queue.pending
    && forall m | i <= m <= j :: slot in ss[m].queue.pending && ss[m].queue.pending[slot] == ss[i].queue.pending[slot]
  }

  function JobsTaken(ms: seq<Move>, i: nat, j: nat): nat
    requires i <= j <= |ms|
  {
    if i == j then 0 else JobsTaken(ms, i, j - 1) + (if ms[j - 1].TakeJob? then 1 else 0)
  }

  lemma MoveAdvances(s: Pool, m: Move, slot: Slot)
    requires Attended(s) && CanMove(s, m) && slot in s.queue.pending && slot in Moved(s, m).queue.pending
    requires Moved(s, m).queue.pending[slot] == s.queue.pending[slot]
    ensures |Ahead(Moved(s, m).queue, slot)| + (if m.TakeJob? then 1 else 0) <= |Ahead(s.queue, slot)|
  {
    match m
    case TakeJob(oldest) => TakingOldestAdvances(s.queue, oldest, slot);
    case Queue(live) =>
      if !s.closing {
        PutNeverOvertakes(s.queue, LiveSlot(KindOf(live.pub)), Publication(live), slot);
        SubsetIsNoLarger(Ahead(Moved(s, m).queue, slot), Ahead(s.queue, slot));
      }
    case DropPositions =>
      DropNeverOvertakes(s.queue, {LiveSlot(PositionKind)}, slot);
      SubsetIsNoLarger(Ahead(Moved(s, m).queue, slot), Ahead(s.queue, slot));
    case DropStatuses =>
      DropNeverOvertakes(s.queue, {LiveSlot(StatusKind)}, slot);
      SubsetIsNoLarger(Ahead(Moved(s, m).queue, slot), Ahead(s.queue, slot));
    case _ =>
  }

  lemma {:induction false} JobsUseUpThoseAhead(ss: seq<Pool>, ms: seq<Move>, i: nat, j: nat, slot: Slot)
    requires IsPoolRun(ss, ms) && StaysQueued(ss, i, j, slot)
    ensures JobsTaken(ms, i, j) + |Ahead(ss[j].queue, slot)| <= |Ahead(ss[i].queue, slot)|
    decreases j
  {
    if i < j {
      assert StaysQueued(ss, i, j - 1, slot);
      JobsUseUpThoseAhead(ss, ms, i, j - 1, slot);
      PoolIsAttended(ss, ms, j - 1);
      assert ss[j] == Moved(ss[j - 1], ms[j - 1]);
      MoveAdvances(ss[j - 1], ms[j - 1], slot);
    }
  }

  /** A publication that stays pending and is not replaced waits for at most five others. */
  lemma AtMostFiveGoFirst(ss: seq<Pool>, ms: seq<Move>, i: nat, j: nat, slot: Slot)
    requires IsPoolRun(ss, ms) && StaysQueued(ss, i, j, slot)
    ensures JobsTaken(ms, i, j) <= 5
  {
    JobsUseUpThoseAhead(ss, ms, i, j, slot);
    var slots := {LiveSlot(HelloKind), LiveSlot(ActivityKind), LiveSlot(PositionKind), LiveSlot(StatusKind),
                  LiveSlot(StopKind), UnsubscribeSlot};
    assert |slots| == 6;
    forall k | k in ss[i].queue.pending
      ensures k in slots
    {
      if k.LiveSlot? {
        match k.kind case HelloKind => case ActivityKind => case PositionKind => case StatusKind => case StopKind =>
      }
    }
    AheadIsBounded(ss[i].queue, slot, slots);
  }

  // ---- the worker exits after closing ----

  /** The worker's own moves. */
  predicate IsWorkers(m: Move) {
    m.WakeUp? || m.TakeJob? || m.FindNothing? || m.FinishJob?
  }

  /** How much is left for a worker that is to exit. */
  function Remaining(s: Pool): nat {
    match s.worker
    case Exited => 0
    case Draining => 2 * |s.queue.pending| + 1
    case Handling(_) => 2 * |s.queue.pending| + 2
    case Asleep => 2 * |s.queue.pending| + 2
  }

  lemma DropShrinks(q: Latest<Slot, Job>, slots: set<Slot>)
    ensures |Drop(q, slots).pending| <= |q.pending|
  {
    assert Drop(q, slots).pending.Keys == q.pending.Keys - slots;
    SubsetIsNoLarger(q.pending.Keys - slots, q.pending.Keys);
  }

  lemma TakingShrinks(q: Latest<Slot, Job>, slot: Slot)
    requires slot in q.pending
    ensures |Drop(q, {slot}).pending| == |q.pending| - 1
  {
    assert Drop(q, {slot}).pending.Keys == q.pending.Keys - {slot};
  }

  /** Once closing, no move adds work and every move of the worker reduces what is left. */
  lemma ClosingWindsDown(s: Pool, m: Move)
    requires s.closing && CanMove(s, m)
    ensures Moved(s, m).closing
    ensures Remaining(Moved(s, m)) + (if IsWorkers(m) then 1 else 0) <= Remaining(s)
  {
    if m.TakeJob? {
      TakingShrinks(s.queue, m.slot);
    } else {
      ClosedQueueShrinks(s, m);
    }
  }

  lemma ClosedQueueShrinks(s: Pool, m: Move)
    requires s.closing && CanMove(s, m)
    ensures Moved(s, m).closing && |Moved(s, m).queue.pending| <= |s.queue.pending|
  {
    match m
    case TakeJob(slot) => DropShrinks(s.queue, {slot});
    case DropPositions => DropShrinks(s.queue, {LiveSlot(PositionKind)});
    case DropStatuses => DropShrinks(s.queue, {LiveSlot(StatusKind)});
    case _ =>
  }

  function WorkerMoves(ms: seq<Move>, i: nat, j: nat): nat
    requires i <= j <= |ms|
  {
    if i == j then 0 else WorkerMoves(ms, i, j - 1) + (if IsWorkers(ms[j - 1]) then 1 else 0)
  }

  lemma {:induction false} WorkWindsDown(ss: seq<Pool>, ms: seq<Move>, i: nat, j: nat)
    requires IsPoolRun(ss, ms) && i <= j < |ss| && ss[i].closing
    ensures ss[j].closing && WorkerMoves(ms, i, j) + Remaining(ss[j]) <= Remaining(ss[i])
    decreases j
  {
    if i < j {
      WorkWindsDown(ss, ms, i, j - 1);
      ClosingWindsDown(ss[j - 1], ms[j - 1]);
    }
  }

  /**
   From the move that shuts the pool on, the worker makes at most four more moves. As long as it has
   not exited, one of its moves, or the post that lets it wake up, is possible; so it does exit.
   */
  lemma WorkerExitsAfterClosing(ss: seq<Pool>, ms: seq<Move>, i: nat, j: nat) returns (next: Move)
    requires IsPoolRun(ss, ms) && i < j < |ss| && ms[i].Shut?
    ensures WorkerMoves(ms, i + 1, j) <= 4
    ensures !ss[j].worker.Exited? ==> CanMove(ss[j], next) && (IsWorkers(next) || next.PostToken?)
    ensures WorkerMoves(ms, i + 1, j) == Remaining(ss[i + 1]) ==> ss[j].worker.Exited?
  {
    WorkWindsDown(ss, ms, i + 1, j);
    PoolIsAttended(ss, ms, j);
    PoolIsAttended(ss, ms, i + 1);
    ShutLeavesOne(ss[i], ms[i]);
    next := PostToken;
    var s := ss[j];
    if s.worker.Asleep? && s.token {
      next := WakeUp;
    } else if s.worker.Handling? {
      next := FinishJob;
    } else if s.worker.Draining? {
      next := DrainStep(s);
    }
  }

  lemma ShutLeavesOne(s: Pool, m: Move)
    requires CanMove(s, m) && m.Shut?
    ensures Moved(s, m).closing && |Moved(s, m).queue.pending| <= 1
  {
  }

  lemma DrainStep(s: Pool) returns (next: Move)
    requires s.worker.Draining?
    ensures CanMove(s, next) && IsWorkers(next)
  {
    if s.queue.pending == map[] {
      next := FindNothing;
    } else {
      var slot := OldestOf(s.queue, s.queue.pending.Keys);
      next := TakeJob(slot);
    }
  }
}
