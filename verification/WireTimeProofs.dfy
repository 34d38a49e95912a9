/**
 Capture times on the wire. Positions carry them in whole milliseconds, and this says exactly for which GPS
 timestamps they strictly increase there as they do in the adapter.
 */
module WireTimeProofs {
  import opened Basics
  import opened Messages
  import opened AdapterModel
  import opened AdapterRuns
  import opened SourceProofs
  import opened GrantedRun

  /** Of two queued positions the later one has the later time on the wire. */
  ghost predicate WireStrict(s: State) {
    forall a, b | 0 <= a < b < |s.log.feed| && s.log.feed[a].pub.PositionPub? && s.log.feed[b].pub.PositionPub? ::
      UnixMilli(s.log.feed[a].pub.captured) < UnixMilli(s.log.feed[b].pub.captured)
  }

  /** No two timestamps that can be sent share a millisecond. */
  ghost predicate Apart(T: iset<Time>) {
    forall t, u | t in T && u in T && t < u && SafePositive(UnixMilli(t)) && SafePositive(UnixMilli(u)) ::
      UnixMilli(t) != UnixMilli(u)
  }

  lemma CapturedFrom(T: iset<Time>, ss: seq<State>, es: seq<Input>, j: nat, a: nat)
    requires FeedTrace(ss, es) && StampedFrom(T, es) && j < |ss| && a < |ss[j].log.feed|
             && ss[j].log.feed[a].pub.PositionPub?
    ensures ss[j].log.feed[a].pub.captured in T && SafePositive(UnixMilli(ss[j].log.feed[a].pub.captured))
  {
    var k := TraceFeed(ss, es, j, a);
    assert FeedAt(ss, es, k);
    PositionFromInput(ss[k], es[k], ss[k + 1], ss[j].log.feed[a].pub);
  }

  lemma ApartIsStrict(T: iset<Time>, ss: seq<State>, es: seq<Input>, j: nat)
    requires Apart(T) && IsRun(ss, es) && StampedFrom(T, es) && j < |ss|
    ensures WireStrict(ss[j])
  {
    RunIsFeedTrace(ss, es);
    forall a, b | 0 <= a < b < |ss[j].log.feed| && ss[j].log.feed[a].pub.PositionPub?
        && ss[j].log.feed[b].pub.PositionPub?
      ensures UnixMilli(ss[j].log.feed[a].pub.captured) < UnixMilli(ss[j].log.feed[b].pub.captured)
    {
      CaptureTimesStrictlyIncrease(ss, es, j, a, b);
      CapturedFrom(T, ss, es, j, a);
      CapturedFrom(T, ss, es, j, b);
    }
  }

  // ---- two positions of one millisecond ----

  function FirstFix(t: Time): State {
    var s := Granted(t, []);
    s.(source := Source(3, t, t, Some(t), None, 1, false, 0, false, 0, 0),
       log := s.log.(feed := [Live(1, "c", PositionPub("s", "m", "x", 1, 1, 3, t, 1), t + 5 * SECOND)]))
  }

  function SecondFix(t: Time, u: Time): State {
    var s := FirstFix(t);
    s.(source := Source(3, t + SECOND, u, Some(u), None, 2, false, 0, false, 0, 0),
       log := s.log.(feed := s.log.feed + [Live(1, "c", PositionPub("s", "m", "x", 1, 1, 3, u, 2), t + 6 * SECOND)]))
  }

  lemma FirstFixStep(t: Time)
    requires t > 0 && SafePositive(UnixMilli(t))
    ensures OnGps(Granted(t, []), At(t), Some(t), true) == FirstFix(t)
  {
  }

  lemma SecondFixStep(t: Time, u: Time)
    requires 0 < t < u < t + SECOND && SafePositive(UnixMilli(u))
    ensures OnGps(FirstFix(t), At(t + SECOND), Some(u), true) == SecondFix(t, u)
  {
  }

  lemma FirstFixIsReachable(T: iset<Time>, t: Time)
    requires t in T && t > 0 && SafePositive(UnixMilli(t))
    ensures Reaches(T, FirstFix(t))
  {
    GrantedIsReachable(T, t, []);
    ReachStep(T, Granted(t, []), Input(At(t), GpsIn(Some(t), true)));
    FirstFixStep(t);
  }

  lemma OneMillisecondApart(t: Time, u: Time)
    requires t < u && SafePositive(UnixMilli(t)) && UnixMilli(t) == UnixMilli(u)
    ensures 0 < t && u < t + MILLISECOND
  {
  }

  /** Two timestamps of one millisecond, delivered a cadence apart, are both queued, with one wire time. */
  lemma SharedMillisecondRepeats(T: iset<Time>, t: Time, u: Time)
    requires t in T && u in T && t < u && SafePositive(UnixMilli(t)) && UnixMilli(t) == UnixMilli(u)
    ensures Reaches(T, SecondFix(t, u)) && !WireStrict(SecondFix(t, u))
  {
    OneMillisecondApart(t, u);
    FirstFixIsReachable(T, t);
    ReachStep(T, FirstFix(t), Input(At(t + SECOND), GpsIn(Some(u), true)));
    SecondFixStep(t, u);
    var feed := SecondFix(t, u).log.feed;
    assert feed[0].pub.captured == t && feed[1].pub.captured == u;
  }

  // ---- the theorem ----

  /**
   In every run with GPS timestamps from `T`, capture times strictly increase on the wire, if and only if no
   two of these timestamps that can be sent share a millisecond.
   */
  lemma WireTimesStrictIff(T: iset<Time>)
    ensures (forall s | Reaches(T, s) :: WireStrict(s)) <==> Apart(T)
  {
    if Apart(T) {
      forall s | Reaches(T, s)
        ensures WireStrict(s)
      {
        var ss, es :| IsRun(ss, es) && StampedFrom(T, es) && ss[|es|] == s;
        ApartIsStrict(T, ss, es, |es|);
      }
    } else {
      var t, u :| t in T && u in T && t < u && SafePositive(UnixMilli(t)) && SafePositive(UnixMilli(u)) &&
        UnixMilli(t) == UnixMilli(u);
      SharedMillisecondRepeats(T, t, u);
    }
  }

  /** Whole milliseconds, in particular, are apart. */
  lemma WholeMillisecondsAreApart(T: iset<Time>)
    requires forall t | t in T :: (t - UNIX_EPOCH) % MILLISECOND == 0
    ensures Apart(T)
  {
    forall t, u | t in T && u in T && t < u
      ensures UnixMilli(t) != UnixMilli(u)
    {
      assert t == FromUnixMilli(UnixMilli(t)) && u == FromUnixMilli(UnixMilli(u));
    }
  }
}
