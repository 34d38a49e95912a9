/**
 The conditions of the protocol in the adapter's own fields, as its documentation words them. The modules
 that say exactly when the adapter does something are stated with these and with fields alone.
 */
module Vocabulary {
  import opened Basics
  import opened Messages
  import opened AdapterModel

  /** There is a client, and it is connected. */
  predicate OnLine(s: State, env: Env) {
    s.link.client.Some? && env.up
  }

  /** ... and the server knows this connection by a nonce. */
  predicate Introduced(s: State, env: Env) {
    OnLine(s, env) && s.link.connection != ""
  }

  /** Settings are read and not blocked, and the journal is known, idle and not blocked. */
  predicate Open(s: State) {
    && s.consent.settingsReady && !s.consent.blocked
    && s.journal.ready && !s.journal.blocked && s.journal.state.Some? && s.journal.state.value.phase == Idle
  }

  /** The rider has been sharing for less than ten seconds. */
  predicate Sharing(s: State, now: Time) {
    && s.consent.activity.Some? && s.consent.activity.value.active
    && s.consent.activityAt <= now < s.consent.activityAt + LEASE_DURATION
  }

  /** The held lease is running. */
  predicate LeaseRuns(s: State, now: Time) {
    && s.consent.grant.Some? && s.consent.grantAt != 0
    && s.consent.grantAt <= now < s.consent.grantAt + s.consent.grantTTL
  }

  /** Everything that lets the scooter act on its grant now. */
  predicate InForce(s: State, env: Env) {
    Open(s) && OnLine(s, env) && s.consent.grantActive && LeaseRuns(s, env.now) && Sharing(s, env.now)
  }

  /** The rider's activity names the session and the member of the grant. */
  predicate RidesForGrant(s: State) {
    && s.consent.activity.Some? && s.consent.grant.Some?
    && s.consent.activity.value.session.Some? && s.consent.activity.value.member.Some?
    && s.consent.activity.value.session == s.consent.grant.value.session
    && s.consent.activity.value.member == s.consent.grant.value.member
  }

  function Least(a: Time, b: Time): Time {
    if a <= b then a else b
  }

  function Largest(a: int, b: int): int {
    if a >= b then a else b
  }

  /** What is sent, at most once, for the current client and connection. */
  function Once(s: State, due: bool, pub: MqttPub, expiresAt: Time): seq<Live> {
    if due && s.link.client.Some? then [Live(s.link.client.value, s.link.connection, pub, expiresAt)] else []
  }

  /** What is queued for Redis next. */
  function Entry(s: State, env: Env, msg: RedisMsg, expiresAt: Time): RedisPub {
    RedisPub(s.redis.next, msg, env.now, expiresAt)
  }

  /** The probe can still be answered: in time, on this connection, and in this IPC epoch. */
  predicate Outstanding(s: State, env: Env, c: Id) {
    && c in s.journal.probes && env.now <= s.journal.probes[c].deadline
    && s.journal.probes[c].connection == s.link.connection && s.journal.probes[c].epoch == s.journal.epoch
  }

  /** How many of the instants are not before `from`. */
  function Recent(times: seq<Time>, from: Time): (n: nat)
  {
    if times == [] then 0 else Recent(times[1..], from) + if times[0] >= from then 1 else 0
  }

  /** The journal can be asked: settings are known, the server knows us, and ten seconds hold fewer than ten probes. */
  predicate MayAsk(s: State, env: Env) {
    s.consent.settingsReady && Introduced(s, env) && Recent(s.journal.probeTimes, env.now - 10 * SECOND) < 10
  }

  /** Nothing that was granted or registered is left, nothing is pending, and the epoch has moved on by `n`. */
  predicate Void(s: State, t: State, n: nat) {
    && t.consent.grant.None? && t.consent.grantAt == 0 && t.consent.grantTTL == 0 && !t.consent.grantActive
    && t.consent.activity.None? && t.consent.activityAt == 0 && t.consent.challenges == map[]
    && t.source.generation > s.source.generation && t.source.lastPositionAt == 0 && t.source.estimator.None?
    && t.journal.attempts == map[] && t.journal.query.None? && t.journal.permit.None? && !t.journal.ready
    && t.journal.epoch == s.journal.epoch + n
  }
}
