// The schedule of a cron (controllers/disruption_cron_controller.go, getNextSchedule). A schedule is its Next
// function on times in seconds, which always moves forward.
module Schedule {
  import opened DisruptionTypes
  import opened Selection

  ghost predicate Progressive(next: nat -> nat) {
    forall t :: next(t) > t
  }

  // Next gives the least point of a fixed set after its argument. Calendar schedules are like this; fixed
  // delays, which count from their argument, are not.
  ghost predicate Calendar(next: nat -> nat) {
    Progressive(next) && forall s: nat, t: nat :: s <= t < next(s) ==> next(t) == next(s)
  }

  predicate Point(next: nat -> nat, p: nat) {
    p > 0 && next(p - 1) == p
  }

  // The last of next(earliest), next(next(earliest)), ... that is not after now.
  function LastMissed(next: nat -> nat, earliest: nat, now: nat): (r: Option<nat>)
    requires Progressive(next)
    ensures r.Some? ==> earliest < r.value <= now
    decreases now - earliest
  {
    if earliest > now || next(earliest) > now then None else
      var later := LastMissed(next, next(earliest), now);
      if later.Some? then later else Some(next(earliest))
  }

  // As time passes, the last missed point moves on along the chain.
  lemma {:induction false} LastMissedLater(next: nat -> nat, earliest: nat, now: nat, later: nat)
    requires Progressive(next) && now <= later && LastMissed(next, earliest, now).Some?
    ensures var run := LastMissed(next, earliest, now).value;
      && LastMissed(next, earliest, later) == (if next(run) > later then Some(run) else LastMissed(next, run, later))
      && (next(run) <= later ==> LastMissed(next, run, later).Some?)
    decreases now - earliest
  {
    var t := next(earliest);
    if LastMissed(next, t, now).Some? {
      LastMissedLater(next, t, now, later);
      assert LastMissed(next, t, later).Some?;
    }
  }

  method GetNextSchedule(next: nat -> nat, earliest: nat, now: nat) returns (missed: Option<nat>, upcoming: nat)
    requires Progressive(next)
    ensures missed == LastMissed(next, earliest, now) && upcoming == next(now)
  {
    missed := None;
    if earliest > now {
      return None, next(now);
    }
    var t := next(earliest);
    while t <= now
      invariant t > earliest
      invariant missed.None? ==> t == next(earliest)
      invariant missed.Some? ==> missed.value <= now && t == next(missed.value)
      invariant LastMissed(next, earliest, now) ==
        if missed.None? || LastMissed(next, missed.value, now).Some? then
          LastMissed(next, if missed.None? then earliest else missed.value, now)
        else missed
      decreases now - t
    {
      missed, t := Some(t), next(t);
    }
    upcoming := next(now);
  }

  lemma {:induction false} NoPointBefore(next: nat -> nat, t: nat, p: nat)
    requires Calendar(next) && t < p < next(t)
    ensures !Point(next, p)
  {
    assert next(p - 1) == next(t);
  }

  // For a calendar the run to catch up is the greatest point after `earliest` up to now, if there is one.
  lemma {:induction false} GreatestMissedPoint(next: nat -> nat, earliest: nat, now: nat)
    requires Calendar(next)
    ensures var r := LastMissed(next, earliest, now);
      && (r.Some? <==> exists p: nat :: earliest < p <= now && Point(next, p))
      && (r.Some? ==> Point(next, r.value) && forall p: nat :: earliest < p <= now && Point(next, p) ==> p <= r.value)
    decreases now - earliest
  {
    forall p: nat | earliest < p <= now && Point(next, p) ensures next(earliest) <= p {
      if p < next(earliest) {
        NoPointBefore(next, earliest, p);
      }
    }
    if earliest <= now && next(earliest) <= now {
      var t := next(earliest);
      assert next(t - 1) == t && Point(next, t);
      GreatestMissedPoint(next, t, now);
      var later, r := LastMissed(next, t, now), LastMissed(next, earliest, now);
      assert r == if later.Some? then later else Some(t);
      forall p: nat | earliest < p <= now && Point(next, p) ensures p <= r.value {
        assert p == t || t < p;
      }
    }
  }

  // And the time of the next check is the least point after now.
  lemma LeastUpcomingPoint(next: nat -> nat, now: nat)
    requires Calendar(next)
    ensures Point(next, next(now)) && forall p: nat :: p > now && Point(next, p) ==> p >= next(now)
  {
    assert next(next(now) - 1) == next(now);
    forall p: nat | p > now && Point(next, p) ensures p >= next(now) {
      if p < next(now) {
        NoPointBefore(next, now, p);
      }
    }
  }

  // GetMostRecentScheduleTime: the items are sorted by time and the last one is taken; 0 is the zero time.
  method MostRecent(times: seq<nat>) returns (t: nat)
    ensures times == [] ==> t == 0
    ensures times != [] ==> t in times && forall u :: u in times ==> u <= t
  {
    if times == [] {
      return 0;
    }
    var items := new Hashed<int>[|times|](j requires 0 <= j < |times| => Hashed(j, times[j]));
    ghost var before := items[..];
    SortSlice(items);
    t := items[items.Length - 1].hash;
    forall j | 0 <= j < |times| ensures times[j] <= t {
      assert before[j] in multiset(items[..]);
      var k :| 0 <= k < items.Length && items[..][k] == before[j];
    }
    assert items[..][items.Length - 1] in multiset(before);
    ghost var k :| 0 <= k < |before| && before[k] == items[items.Length - 1];
    assert times[k] == t;
  }
}
