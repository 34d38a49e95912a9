/**
 What the adapter does with the server's word on a stop: exactly when a reply is ignored, contradicts the
 journal or is passed on, when `not_found` leads to the confirmation probe, and when an offer is made.
 */
module ReplyResponses {
  import opened Basics
  import opened Messages
  import opened AdapterModel
  import opened Vocabulary
  import opened ProbeResponses

  /** The control was sent to this connection. */
  predicate Arrives(s: State, env: Env, c: Control) {
    OnLine(s, env) && c.nonce == s.link.connection
  }

  /** The reply answers an attempt that is still open: unanswered, of this connection and epoch, and in time. */
  predicate Replies(s: State, env: Env, c: Control) {
    && c.action == Status && c.stopResult.Some? && Arrives(s, env, c) && c.challenge in s.journal.attempts
    && var a := s.journal.attempts[c.challenge];
       && !a.consumed && a.connection == s.link.connection && a.epoch == s.journal.epoch && env.now <= a.deadline
       && c.stopOp == Some(a.op)
  }

  /** The journal is still at the operation and revision the attempt was about. */
  predicate StillAt(s: State, a: Attempt) {
    s.journal.state.Some? && s.journal.state.value.op == Some(a.op) && s.journal.state.value.revision == a.revision
  }

  /**
   The reply agrees with the journal: it is still where the attempt found it, an applied stop is still prepared
   under the attempt's fence, and a committed one was committed from that fence.
   */
  predicate Agrees(s: State, c: Control, a: Attempt) {
    && StillAt(s, a)
    && (a.mode == Apply ==> s.journal.state.value.phase == Prepared && s.journal.state.value.expected == a.fence)
    && (c.stopResult == Some(Committed) && a.fence.Some? ==> c.stopExpected == a.fence)
  }

  /** A status with a result that answers no open attempt changes nothing. */
  lemma StrayReplyIsIgnored(s: State, env: Env, c: Control, id: Option<Id>)
    requires ValidControl(c) && c.action == Status && c.stopResult.Some? && !Replies(s, env, c)
    ensures OnControl(s, env, c, id) == s
  {
  }

  /** A reply that does not agree voids everything. */
  lemma DisagreeingReplyVoids(s: State, env: Env, c: Control, id: Option<Id>)
    requires ValidControl(c) && Replies(s, env, c) && !Agrees(s, c, s.journal.attempts[c.challenge])
    ensures var t := OnControl(s, env, c, id);
            Void(s, t, 1) && t.journal.blocked && t.journal.state == s.journal.state && t.log == s.log
  {
  }

  /** The attempt asked the pending query, which is still open and about the journal as it is. */
  predicate AskedPending(s: State, env: Env, a: Attempt) {
    && s.journal.query.Some? && s.journal.state.Some?
    && (var q := s.journal.query.value;
        && a.op == q.op && a.revision == q.revision && a.fence == Some(q.fence) && a.challenge == q.queryChallenge
        && a.deadline == q.deadline && env.now < q.deadline
        && q.connection == s.link.connection && q.epoch == s.journal.epoch)
    && s.journal.state.value.phase == Prepared && s.journal.state.value.expected == a.fence
  }

  /** The report of a reply: to Redis, for what is left of the attempt's time. */
  function Report(c: Control, a: Attempt): RedisMsg
    requires c.stopResult.Some?
  {
    var result := c.stopResult.value;
    ResultMsg(a.op, a.revision, a.challenge, a.connection, Outcome(result), c.stopExpected,
              if result in {Committed, Superseded, Unconfirmed} then Some(c.consent) else None)
  }

  /** `not_found` on the pending query: the stop may be applied once the journal confirms it. */
  predicate MayApply(s: State, env: Env, c: Control, a: Attempt) {
    a.mode == Query && c.stopResult == Some(NotFound) && AskedPending(s, env, a)
  }

  /** A probe can go out at once: the journal can be asked and no question is open. */
  predicate Confirmable(s: State, env: Env, c: Control, a: Attempt, id: Option<Id>) {
    MayApply(s, env, c, a) && Due(s, env, id)
  }

  /**
   A reply that agrees is passed on and its attempt used up. On `not_found` for the pending query the journal is
   asked for its confirmation, exactly when it can be.
   */
  lemma AgreeingReplyIsPassedOn(s: State, env: Env, c: Control, id: Option<Id>)
    requires ValidControl(c) && Replies(s, env, c) && Agrees(s, c, s.journal.attempts[c.challenge])
    ensures var t := OnControl(s, env, c, id);
            var a := s.journal.attempts[c.challenge];
            && t.journal.attempts == s.journal.attempts[c.challenge := a.(consumed := true)]
            && t.log.queued == s.log.queued +
                               [Entry(s, env, Report(c, a), if env.now < a.deadline then a.deadline else 0)] +
                               (if Confirmable(s, env, c, a, id)
                                then [RedisPub(s.redis.next + 1, ProbeMsg(id.value), env.now, env.now + 10 * SECOND)]
                                else [])
  {
    var s1 := PassedOn(s, env, c);
    PassOn(s, env, c, id);
    ProbeGoesOut(s1, env, s.journal.query, id);
  }

  /** ... the probe then asks for this very query, which is forgotten if it cannot, as after any applied stop. */
  lemma NotFoundAsksToConfirm(s: State, env: Env, c: Control, id: Option<Id>)
    requires ValidControl(c) && Replies(s, env, c) && Agrees(s, c, s.journal.attempts[c.challenge])
    ensures var t := OnControl(s, env, c, id);
            var a := s.journal.attempts[c.challenge];
            && (Confirmable(s, env, c, a, id) ==>
                  t.journal.probes == map[id.value := Question(s, env, id.value, s.journal.query)])
            && t.journal.query ==
               (if a.mode == Apply || (MayApply(s, env, c, a) && !Confirmable(s, env, c, a, id)) then None
                else s.journal.query)
            && t.consent == s.consent && t.source == s.source && t.journal.state == s.journal.state
  {
    var s1 := PassedOn(s, env, c);
    PassOn(s, env, c, id);
    ProbeGoesOut(s1, env, s.journal.query, id);
  }

  /** The state with the reply reported and its attempt used up. */
  function PassedOn(s: State, env: Env, c: Control): State
    requires c.challenge in s.journal.attempts && c.stopResult.Some?
  {
    ForwardResult(MarkConsumed(s, c.challenge), env, c, s.journal.attempts[c.challenge])
  }

  lemma PassOn(s: State, env: Env, c: Control, id: Option<Id>)
    requires ValidControl(c) && Replies(s, env, c) && Agrees(s, c, s.journal.attempts[c.challenge])
    ensures var a := s.journal.attempts[c.challenge];
            var s1 := PassedOn(s, env, c);
            OnControl(s, env, c, id) ==
            if MayApply(s, env, c, a) then
              var s2 := IssueProbe(s1, env, ApplyConfirmation, s.journal.query, id);
              if Due(s, env, id) then s2 else s2.(journal := s2.journal.(query := None))
            else if a.mode == Apply then s1.(journal := s1.journal.(query := None))
            else s1
  {
    DueIffIssued(PassedOn(s, env, c), env, id);
  }

  // ---- offers ----

  /** The preparing journal waits for the server's consent generation, and the greeting it permitted is answered. */
  predicate AnswersGreeting(s: State, env: Env, c: Control) {
    && Arrives(s, env, c) && s.journal.permit.Some? && s.journal.state.Some?
    && (var p := s.journal.permit.value;
        && c.challenge == p.challenge && p.connection == s.link.connection && p.epoch == s.journal.epoch
        && env.now <= p.deadline
        && s.journal.state.value.op == Some(p.op) && s.journal.state.value.revision == p.revision)
    && s.journal.state.value.phase == Preparing
  }

  /**
   A status without a result is forwarded; it is an offer as well exactly when it answers the permitted greeting,
   which it can do once.
   */
  lemma StatusIsForwarded(s: State, env: Env, c: Control, id: Option<Id>)
    requires ValidControl(c) && c.action == Status && c.stopResult.None?
    ensures var t := OnControl(s, env, c, id);
            var answers := AnswersGreeting(s, env, c);
            && (!Arrives(s, env, c) ==> t == s)
            && t.journal == s.journal.(permit := if answers then None else s.journal.permit)
            && t.consent == s.consent && t.source == s.source
            && (Arrives(s, env, c) ==>
                  var next := s.redis.next + if answers then 1 else 0;
                  t.log.queued == s.log.queued +
                                  (if answers then [OfferEntry(s, env, c, s.journal.permit.value)] else []) +
                                  [RedisPub(next, ControlMsg(c), env.now, env.now + 10 * SECOND)])
  {
  }

  function OfferEntry(s: State, env: Env, c: Control, p: Probe): RedisPub {
    Entry(s, env, ResultMsg(p.op, p.revision, p.challenge, s.link.connection, Offer, Some(c.consent), None),
          if env.now < p.deadline then p.deadline else 0)
  }
}
