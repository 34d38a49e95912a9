/**
 What the adapter reports to the dashboard about a stop: every report names the operation, journal
 revision and challenge it belongs to, and satisfies the rules of its encoder, so none is lost there.
 */
module ResultProofs {
  import opened Basics
  import opened Messages
  import opened AdapterModel
  import opened AdapterRuns
  import opened ConsentProofs
  import opened StopProofs

  /** The encoder's rules for a result. */
  predicate EncodableResult(revision: int, result: LocalResult, expected: Option<int>, committed: Option<int>) {
    && SafePositive(revision) && ValidGeneration(expected) && ValidGeneration(committed)
    && match result
       case Offer => expected.Some? && committed.None?
       case Outcome(Committed) => Advancing(expected, committed)
       case Outcome(Superseded) => Advancing(expected, committed)
       case Outcome(Unconfirmed) => Advancing(expected, committed)
       case Outcome(NotFound) => committed.None?
       case Outcome(Expired) => committed.None?
       case Outcome(Error) => committed.Some? ==> Advancing(expected, committed)
  }

  predicate JournalIsValid(s: State) {
    s.journal.state.Some? ==> ValidLocalStop(s.journal.state.value)
  }

  lemma StepKeepsJournalValid(s: State, i: Input, t: State)
    requires JournalIsValid(s) && WellFormed(i.event) && Effect(s, i, t)
    ensures JournalIsValid(t)
  {
  }

  lemma {:induction false} RunKeepsJournalValid(ss: seq<State>, es: seq<Input>, j: nat)
    requires IsRun(ss, es) && j < |ss|
    ensures JournalIsValid(ss[j])
  {
    if j > 0 {
      RunKeepsJournalValid(ss, es, j - 1);
      assert StepAt(ss, es, j - 1);
      NextEffect(ss[j - 1], es[j - 1]);
      StepKeepsJournalValid(ss[j - 1], es[j - 1], ss[j]);
    }
  }

  /** The first thing that the step from `s` to `t` queues for Redis. */
  predicate QueuesFirst(s: State, t: State, msg: RedisMsg) {
    |t.log.queued| > |s.log.queued| && t.log.queued[|s.log.queued|].msg == msg
  }

  lemma ReplyQueuesResult(s: State, env: Env, c: Control, id: Option<Id>)
    requires ValidControl(c) && c.action.Status? && c.stopResult.Some? && ForwardsReply(s, env, c) && JournalIsValid(s)
    requires Linked(s, env) && c.nonce == s.link.connection
    requires s.journal.attempts[c.challenge].challenge == c.challenge
    ensures s.journal.state.Some? && c.stopOp.Some? && s.journal.state.value.op == c.stopOp
    ensures QueuesFirst(s, OnControl(s, env, c, id),
                        ResultMsg(c.stopOp.value, s.journal.state.value.revision, c.challenge, c.nonce,
                                  Outcome(c.stopResult.value), c.stopExpected, CommittedGeneration(c)))
    ensures EncodableResult(s.journal.state.value.revision, Outcome(c.stopResult.value), c.stopExpected,
                            CommittedGeneration(c))
  {
    ReplyIsEncodable(s, env, c);
  }

  /** The generation reported as committed is the server's, if a stop was committed at all. */
  function CommittedGeneration(c: Control): Option<int>
    requires c.stopResult.Some?
  {
    if c.stopResult.value.Committed? || c.stopResult.value.Superseded? || c.stopResult.value.Unconfirmed?
    then Some(c.consent) else None
  }

  lemma ReplyIsEncodable(s: State, env: Env, c: Control)
    requires ValidControl(c) && c.action.Status? && c.stopResult.Some? && ForwardsReply(s, env, c) && JournalIsValid(s)
    ensures s.journal.state.Some?
    ensures EncodableResult(s.journal.state.value.revision, Outcome(c.stopResult.value), c.stopExpected,
                            CommittedGeneration(c))
  {
  }

  /**
   Every forwarded reply reports the attempt's own operation, revision and challenge, the fence and the outcome the
   server named, and as committed the server's own generation; and it can be encoded.
   */
  lemma ForwardedResultIsFaithful(ss: seq<State>, es: seq<Input>, k: nat)
    requires IsRun(ss, es) && k < |es| && ForwardsAt(ss[k], es[k])
    ensures ss[k].journal.state.Some? && es[k].event.control.stopOp.Some? && es[k].event.control.stopResult.Some?
    ensures ss[k].journal.state.value.op == es[k].event.control.stopOp
    ensures var c := es[k].event.control;
            var revision := ss[k].journal.state.value.revision;
            var result := c.stopResult.value;
            var committed := if result in {Committed, Superseded, Unconfirmed} then Some(c.consent) else None;
            && QueuesFirst(ss[k], ss[k + 1], ResultMsg(c.stopOp.value, revision, c.challenge, ss[k].link.connection,
                                                       Outcome(result), c.stopExpected, committed))
            && EncodableResult(revision, Outcome(result), c.stopExpected, committed)
  {
    assert StepAt(ss, es, k);
    RunKeepsJournalValid(ss, es, k);
    RunKeepsStopInv(ss, es, k);
    ReplyQueuesResult(ss[k], es[k].env, es[k].event.control, es[k].event.probe);
  }

  predicate OffersAt(s: State, i: Input) {
    && i.event.ControlIn? && Linked(s, i.env) && i.event.control.nonce == s.link.connection
    && i.event.control.action.Status? && i.event.control.stopResult.None? && Offers(s, i.env, i.event.control)
  }

  lemma OfferQueuesResult(s: State, env: Env, c: Control, id: Option<Id>)
    requires ValidControl(c) && OffersAt(s, Input(env, ControlIn(c, id))) && JournalIsValid(s)
    ensures s.journal.state.Some? && s.journal.state.value.op.Some?
    ensures QueuesFirst(s, OnControl(s, env, c, id),
                        ResultMsg(s.journal.state.value.op.value, s.journal.state.value.revision, c.challenge,
                                  s.link.connection, Offer, Some(c.consent), None))
    ensures EncodableResult(s.journal.state.value.revision, Offer, Some(c.consent), None)
    ensures OnControl(s, env, c, id).journal.permit.None?
  {
  }

  /** Every offer answers the preparing journal with the server's consent generation, and uses up the permit. */
  lemma OfferIsFaithful(ss: seq<State>, es: seq<Input>, k: nat)
    requires IsRun(ss, es) && k < |es| && OffersAt(ss[k], es[k])
    ensures ss[k].journal.state.Some? && ss[k].journal.state.value.op.Some?
            && ss[k].journal.state.value.phase.Preparing?
    ensures var c := es[k].event.control;
            var revision := ss[k].journal.state.value.revision;
            && QueuesFirst(ss[k], ss[k + 1], ResultMsg(ss[k].journal.state.value.op.value, revision, c.challenge,
                                                       ss[k].link.connection, Offer, Some(c.consent), None))
            && EncodableResult(revision, Offer, Some(c.consent), None)
    ensures ss[k + 1].journal.permit.None?
  {
    assert StepAt(ss, es, k);
    RunKeepsJournalValid(ss, es, k);
    OfferQueuesResult(ss[k], es[k].env, es[k].event.control, es[k].event.probe);
  }
}
