/**
 The parts of a joint run are runs of their own, so what is proved of the adapter, of the worker's queue
 and of the transport holds of them in the joint system.
 */
module PipelineParts {
  import opened Basics
  import opened Messages
  import opened AdapterModel
  import opened Pipeline
  import Runs = AdapterRuns
  import Transport = LiveTransport
  import Egress
  import Service

  // ---- the adapter ----

  /** The adapter's run within the joint run; `at[k]` is its state at joint state `k`. */
  ghost predicate AdapterAlong(js: seq<Joint>, es: seq<Step>, ss: seq<State>, inputs: seq<Runs.Input>, at: seq<nat>)
    requires |js| == |es| + 1
  {
    && Runs.IsRun(ss, inputs) && |at| == |js| && at[|es|] == |inputs|
    && (forall k | 0 <= k < |js| :: at[k] < |ss| && js[k].adapter == ss[at[k]])
    && (forall k | 0 <= k < |es| :: at[k + 1] == if es[k].Adapt? then at[k] + 1 else at[k])
    && (forall k | 0 <= k < |es| && es[k].Adapt? :: at[k] < |inputs| && inputs[at[k]] == es[k].input)
  }

  lemma AlongAdapts(js: seq<Joint>, es: seq<Step>, ss: seq<State>, inputs: seq<Runs.Input>, at: seq<nat>, step: Step,
      k: Joint)
    requires |js| == |es| + 1 && AdapterAlong(js, es, ss, inputs, at) && step.Adapt?
             && Runs.Enabled(ss[|inputs|], step.input)
    requires k.adapter == Runs.Next(ss[|inputs|], step.input)
    ensures AdapterAlong(js + [k], es + [step], ss + [k.adapter], inputs + [step.input], at + [|inputs| + 1])
  {
    Service.RunExtends(ss, inputs, step.input);
  }

  lemma AlongStays(js: seq<Joint>, es: seq<Step>, ss: seq<State>, inputs: seq<Runs.Input>, at: seq<nat>, step: Step,
      k: Joint)
    requires |js| == |es| + 1 && AdapterAlong(js, es, ss, inputs, at) && !step.Adapt? && k.adapter == ss[|inputs|]
    ensures AdapterAlong(js + [k], es + [step], ss, inputs, at + [|inputs|])
  {
  }

  lemma AlongExtends(js: seq<Joint>, es: seq<Step>, ss: seq<State>, inputs: seq<Runs.Input>, at: seq<nat>, step: Step)
    returns (ss': seq<State>, inputs': seq<Runs.Input>, at': seq<nat>)
    requires |js| == |es| + 1 && AdapterAlong(js, es, ss, inputs, at) && Can(js[|es|], step)
    ensures AdapterAlong(js + [After(js[|es|], step)], es + [step], ss', inputs', at')
  {
    var k := After(js[|es|], step);
    if step.Adapt? {
      AlongAdapts(js, es, ss, inputs, at, step, k);
      ss', inputs', at' := ss + [k.adapter], inputs + [step.input], at + [|inputs| + 1];
    } else {
      AlongStays(js, es, ss, inputs, at, step, k);
      ss', inputs', at' := ss, inputs, at + [|inputs|];
    }
  }

  lemma RunPrefix(js: seq<Joint>, es: seq<Step>)
    requires IsRun(js, es) && es != []
    ensures IsRun(js[..|es|], es[..|es| - 1]) && StepAt(js, es, |es| - 1)
    ensures js == js[..|es|] + [js[|es|]] && es == es[..|es| - 1] + [es[|es| - 1]]
  {
    var js', es' := js[..|es|], es[..|es| - 1];
    assert StepAt(js, es, |es| - 1);
    forall k: nat | k < |es'|
      ensures StepAt(js', es', k)
    {
      assert StepAt(js, es, k);
    }
  }

  /** Every joint run contains a run of the adapter, whose states the joint states go through in order. */
  lemma {:induction false} AdapterWithin(js: seq<Joint>, es: seq<Step>) returns (ss: seq<State>,
      inputs: seq<Runs.Input>, at: seq<nat>)
    requires IsRun(js, es)
    ensures AdapterAlong(js, es, ss, inputs, at)
    decreases |es|
  {
    if es == [] {
      ss, inputs, at := [Init()], [], [0];
    } else {
      RunPrefix(js, es);
      var n := |es| - 1;
      ss, inputs, at := AdapterWithin(js[..|es|], es[..n]);
      ss, inputs, at := AlongExtends(js[..|es|], es[..n], ss, inputs, at, es[n]);
    }
  }

  // ---- the transport ----

  ghost predicate TransportReaches(t: Transport.Transport) {
    exists ss, es :: Transport.IsRun(ss, es) && ss[|es|] == t
  }

  lemma TransportExtends(ss: seq<Transport.Transport>, es: seq<Transport.Event>, e: Transport.Event)
    requires Transport.IsRun(ss, es) && Transport.Can(ss[|es|], e)
    ensures Transport.IsRun(ss + [Transport.After(ss[|es|], e)], es + [e])
  {
  }

  lemma TransportStep(t: Transport.Transport, e: Transport.Event)
    requires TransportReaches(t) && Transport.Can(t, e)
    ensures TransportReaches(Transport.After(t, e))
  {
    var ss, es :| Transport.IsRun(ss, es) && ss[|es|] == t;
    TransportExtends(ss, es, e);
    var tt, fs := ss + [Transport.After(t, e)], es + [e];
    assert tt[|fs|] == Transport.After(t, e);
  }

  lemma TransportStarts()
    ensures TransportReaches(Transport.Start())
  {
    assert Transport.IsRun([Transport.Start()], []);
  }

  /** The transport moves only by its own events, and asks the adapter as it is then. */
  ghost predicate CarryAt(js: seq<Joint>, es: seq<Step>, k: nat)
    requires |js| == |es| + 1 && k < |es|
  {
    if es[k].Carry?
    then Transport.Can(js[k].transport, es[k].event) && CanCarry(js[k], es[k].event) &&
         js[k + 1].transport == Transport.After(js[k].transport, es[k].event)
    else js[k + 1].transport == js[k].transport
  }

  ghost predicate CarryTrace(js: seq<Joint>, es: seq<Step>) {
    |js| == |es| + 1 && js[0] == Start() && forall k: nat | k < |es| :: CarryAt(js, es, k)
  }

  lemma RunIsCarryTrace(js: seq<Joint>, es: seq<Step>)
    requires IsRun(js, es)
    ensures CarryTrace(js, es)
  {
    forall k: nat | k < |es|
      ensures CarryAt(js, es, k)
    {
      assert StepAt(js, es, k);
    }
  }

  /** The transport's states in a joint run are those of a transport run. */
  lemma {:induction false} TransportWithin(js: seq<Joint>, es: seq<Step>, n: nat)
    requires CarryTrace(js, es) && n < |js|
    ensures TransportReaches(js[n].transport)
  {
    if n == 0 {
      TransportStarts();
    } else {
      TransportWithin(js, es, n - 1);
      assert CarryAt(js, es, n - 1);
      if es[n - 1].Carry? {
        TransportStep(js[n - 1].transport, es[n - 1].event);
      }
    }
  }

  // ---- the worker's queue ----

  ghost predicate PoolReaches(p: Egress.Pool) {
    exists ss, ms :: Egress.IsPoolRun(ss, ms) && ss[|ms|] == p
  }

  lemma PoolStep(p: Egress.Pool, m: Egress.Move)
    requires PoolReaches(p) && Egress.CanMove(p, m)
    ensures PoolReaches(Egress.Moved(p, m))
  {
    var ss, ms :| Egress.IsPoolRun(ss, ms) && ss[|ms|] == p;
    var tt, fs := ss + [Egress.Moved(p, m)], ms + [m];
    assert Egress.IsPoolRun(tt, fs) && tt[|fs|] == Egress.Moved(p, m);
  }

  lemma AbsorbReaches(p: Egress.Pool, s: State, t: State, dropStatus: bool)
    requires PoolReaches(p)
    ensures PoolReaches(Absorb(p, s, t, dropStatus))
  {
    PoolStep(p, Egress.DropPositions);
    var p1 := if t.source.generation != s.source.generation then Egress.Moved(p, Egress.DropPositions) else p;
    PoolStep(p1, Egress.DropStatuses);
    var p2 := if dropStatus then Egress.Moved(p1, Egress.DropStatuses) else p1;
    if |t.log.feed| > |s.log.feed| {
      PoolStep(p2, Egress.Queue(t.log.feed[|s.log.feed|]));
    }
  }

  lemma PoolStarts()
    ensures PoolReaches(Egress.Idle())
  {
    assert Egress.IsPoolRun([Egress.Idle()], []);
  }

  /** The states of the worker's queue in a joint run are those of a run of its own. */
  lemma {:induction false} PoolWithin(js: seq<Joint>, es: seq<Step>, n: nat)
    requires IsRun(js, es) && n < |js|
    ensures PoolReaches(js[n].pool)
  {
    if n == 0 {
      PoolStarts();
    } else {
      PoolWithin(js, es, n - 1);
      assert StepAt(js, es, n - 1);
      JointPoolStep(js[n - 1], es[n - 1]);
    }
  }

  lemma JointPoolStep(j: Joint, step: Step)
    requires PoolReaches(j.pool) && Can(j, step)
    ensures PoolReaches(After(j, step).pool)
  {
    match step
    case Adapt(i, dropStatus) => AbsorbReaches(j.pool, j.adapter, Runs.Next(j.adapter, i), dropStatus);
    case Hand(live) => PoolStep(j.pool, Egress.Queue(live));
    case Work(m) => PoolStep(j.pool, m);
    case _ =>
  }
}
