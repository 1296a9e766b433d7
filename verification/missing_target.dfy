// What the cron and rollout controllers do when their target resource cannot be found
// (updateTargetResourcePreviouslyMissing, which both define alike).
module MissingTarget {
  import opened DisruptionTypes

  // One look at the target: when, whether it was there (None when the API server could not tell), and
  // whether the status write that followed, if any, was stored.
  datatype Check = Check(at: nat, there: Option<bool>, stored: bool)

  // The first-missing mark after a look at the target.
  function Marked(missing: Option<nat>, c: Check): Option<nat> {
    if c.there.None? || !c.stored then missing
    else if c.there.value then None
    else if missing.None? then Some(c.at)
    else missing
  }

  // Whether the owner deletes itself at that look.
  predicate Expired(missing: Option<nat>, c: Check, threshold: nat) {
    c.there == Some(false) && missing.Some? && c.at > missing.value + threshold
  }

  function MarkAfter(checks: seq<Check>): Option<nat> {
    if checks == [] then None else Marked(MarkAfter(checks[..|checks| - 1]), checks[|checks| - 1])
  }

  // A look at time t missed the target, and no later look saw it.
  ghost predicate MissingSince(checks: seq<Check>, m: nat, t: nat) {
    && m < |checks| && checks[m].at == t && checks[m].there == Some(false)
    && forall j :: m <= j < |checks| ==> checks[j].there != Some(true)
  }

  // The target was seen while the mark stood, and no write that removes the mark has been stored since.
  ghost predicate Uncleared(checks: seq<Check>, j: nat) {
    && j < |checks| && checks[j].there == Some(true) && MarkAfter(checks[..j]).Some?
    && forall k :: j <= k < |checks| ==> checks[k].there != Some(true) || !checks[k].stored
  }

  ghost predicate AllCleared(checks: seq<Check>) {
    forall j: nat :: !Uncleared(checks, j)
  }

  // No two looks were at the same time.
  ghost predicate Timely(checks: seq<Check>) {
    forall i, j :: 0 <= i < j < |checks| ==> checks[i].at < checks[j].at
  }

  ghost predicate Justified(checks: seq<Check>, t: nat) {
    exists m :: MissingSince(checks, m, t)
  }

  // A mark that stands means that the target has been missing since, exactly when no look that saw the target was left
  // uncleared.
  lemma MarkIsHonest(checks: seq<Check>)
    requires MarkAfter(checks).Some?
    ensures AllCleared(checks) ==> Justified(checks, MarkAfter(checks).value)
    ensures Timely(checks) ==> (Justified(checks, MarkAfter(checks).value) <==> AllCleared(checks))
  {
    if AllCleared(checks) {
      var m := MissedSince(checks);
    } else {
      var j: nat :| Uncleared(checks, j);
      if Timely(checks) {
        SightContradicts(checks, j);
      }
    }
  }

  lemma {:induction false} MissedSince(checks: seq<Check>) returns (m: nat)
    requires AllCleared(checks) && MarkAfter(checks).Some?
    ensures MissingSince(checks, m, MarkAfter(checks).value)
    decreases |checks|
  {
    var n := |checks| - 1;
    var before := checks[..n];
    assert forall j :: 0 <= j <= n ==> before[..j] == checks[..j];
    if MarkAfter(before).Some? {
      if checks[n].there == Some(true) {
        assert Uncleared(checks, n);
      }
      forall j: nat ensures !Uncleared(before, j) {
        assert Uncleared(before, j) ==> Uncleared(checks, j);
      }
      m := MissedSince(before);
      assert forall j :: m <= j < n ==> checks[j] == before[j];
    } else {
      m := n;
    }
  }

  // A standing mark is the time of an earlier look, and stands until it is cleared.
  lemma {:induction false} MarkIsPast(checks: seq<Check>, j: nat) returns (i: nat)
    requires j <= |checks| && MarkAfter(checks[..j]).Some?
    ensures i < j && checks[i].at == MarkAfter(checks[..j]).value
    decreases j
  {
    assert checks[..j][..j - 1] == checks[..j - 1];
    if MarkAfter(checks[..j - 1]).Some? {
      i := MarkIsPast(checks, j - 1);
    } else {
      i := j - 1;
    }
  }

  lemma {:induction false} MarkStands(checks: seq<Check>, j: nat, n: nat)
    requires j <= n <= |checks| && MarkAfter(checks[..j]).Some?
    requires forall k :: j <= k < n ==> checks[k].there != Some(true) || !checks[k].stored
    ensures MarkAfter(checks[..n]) == MarkAfter(checks[..j])
    decreases n
  {
    if j < n {
      MarkStands(checks, j, n - 1);
      assert checks[..n][..n - 1] == checks[..n - 1];
    }
  }

  lemma SightContradicts(checks: seq<Check>, j: nat)
    requires Uncleared(checks, j) && Timely(checks)
    ensures MarkAfter(checks).Some? && !Justified(checks, MarkAfter(checks).value)
  {
    hide MarkAfter;
    MarkStands(checks, j, |checks|);
    assert checks[..|checks|] == checks;
    var i := MarkIsPast(checks, j);
    forall m | 0 <= m < |checks| ensures !MissingSince(checks, m, MarkAfter(checks).value) {
      assert m <= j || checks[m].at > checks[i].at;
    }
  }

  // So an owner that deletes itself past the threshold has missed its target all along, exactly under that condition.
  lemma ExpiryIsJustified(checks: seq<Check>, c: Check, threshold: nat)
    requires Expired(MarkAfter(checks), c, threshold)
    ensures c.at > MarkAfter(checks).value + threshold
    ensures AllCleared(checks) ==> Justified(checks + [c], MarkAfter(checks).value)
    ensures Timely(checks) ==> (Justified(checks + [c], MarkAfter(checks).value) <==> AllCleared(checks))
  {
    hide MarkAfter;
    MarkIsHonest(checks);
    var t, all := MarkAfter(checks).value, checks + [c];
    forall m: nat ensures MissingSince(all, m, t) <==> MissingSince(checks, m, t) {
      assert forall j :: 0 <= j < |checks| ==> all[j] == checks[j];
      assert all[|checks|] == c;
    }
  }

  // A mark that once stood and stands no more is contradicted by a look that saw the target since.
  lemma StaleMarkIsWrong(checks: seq<Check>, p: nat, c: Check)
    requires p <= |checks| && MarkAfter(checks[..p]).Some? && MarkAfter(checks) != MarkAfter(checks[..p])
    requires Timely(checks) && c.at > MarkAfter(checks[..p]).value
    ensures !Justified(checks + [c], MarkAfter(checks[..p]).value)
  {
    hide MarkAfter;
    var i := MarkIsPast(checks, p);
    assert checks[..|checks|] == checks;
    forall m: nat ensures !MissingSince(checks + [c], m, checks[i].at) {
      if MissingSince(checks + [c], m, checks[i].at) {
        assert forall j :: 0 <= j < |checks| ==> (checks + [c])[j] == checks[j];
        assert m == i;
        MarkStands(checks, p, |checks|);
      }
    }
  }

  // Without that, an owner deletes itself although it saw its target: after a refused write, at every look
  // that misses the target past the threshold.
  lemma RefusedClearExpires(checks: seq<Check>, seen: Check, c: Check, threshold: nat)
    requires MarkAfter(checks).Some? && seen.there == Some(true) && !seen.stored
    requires c.there == Some(false) && c.at > MarkAfter(checks).value + threshold
    ensures Expired(MarkAfter(checks + [seen]), c, threshold)
    ensures !Justified(checks + [seen], MarkAfter(checks + [seen]).value)
  {
    assert (checks + [seen])[..|checks|] == checks;
    assert (checks + [seen])[|checks|] == seen;
  }

  // A concrete case: missing at 0, there at 10 but the write was refused, missing at 100.
  lemma SeenYetDeleted()
    ensures var checks := [Check(0, Some(false), true), Check(10, Some(true), false)];
      Expired(MarkAfter(checks), Check(100, Some(false), true), 50)
  {
    var first := [Check(0, Some(false), true)];
    assert MarkAfter(first) == Some(0) by {
      assert first[..0] == [];
    }
    RefusedClearExpires(first, Check(10, Some(true), false), Check(100, Some(false), true), 50);
    assert first + [Check(10, Some(true), false)] == [Check(0, Some(false), true), Check(10, Some(true), false)];
  }
}
