// Choice of the targets of a disruption (controllers/disruption_controller.go, selectTargets and
// getEligibleTargets; api/v1beta1/disruption_types.go, the three updates of the target list).
module TargetSelection {
  import opened DisruptionTypes

  datatype Container = Alive | Exited(code: int)

  // A chaos pod of any disruption, as found by its target label.
  datatype ChaosPod = ChaosPod(kind: Kind, containers: seq<Container>)

  // What the pass reads from the cluster: the targets matching the selector (None when the listing
  // failed), the number of available ones, the chaos pods seen on each target (None when that
  // listing failed), and the random draws.
  datatype Observed = Observed(
    matching: Option<seq<Target>>,
    total: int,
    podsOn: map<Target, Option<seq<ChaosPod>>>,
    draws: seq<nat>)
  {
    function Matching(): seq<Target> {
      if matching.Some? then matching.value else []
    }

    function Total(): int {
      if matching.Some? && matching.value != [] then total else 0
    }

    function Pods(t: Target): Option<seq<ChaosPod>> {
      if t in podsOn then podsOn[t] else Some([])
    }
  }

  datatype Outcome = Unchanged | ListingFailed | NothingToSelect | Selected

  predicate ActivelyDisrupted(pods: seq<ChaosPod>) {
    exists p :: p in pods && exists c :: c in p.containers && c != Exited(0)
  }

  // The current disruption may take a target on top of those chaos pods.
  predicate Usable(spec: Spec, pods: seq<ChaosPod>) {
    ActivelyDisrupted(pods) ==>
      spec.allowDisruptedTargets && forall p :: p in pods ==> p.kind !in spec.kinds
  }

  function EligibleSet(spec: Spec, current: set<Target>, obs: Observed): set<Target> {
    set t | t in obs.Matching() && t !in current && obs.Pods(t).Some? && Usable(spec, obs.Pods(t).value)
  }

  function FreshInjections(spec: Spec): map<Kind, InjectionStatus> {
    map k | k in spec.kinds :: NotInjected
  }

  // intstr.GetScaledValueFromIntOrPercent, rounding up.
  function DesiredCount(count: Count, total: nat): int {
    match count
    case Absolute(n) => n
    case Percentage(p) => -((-p * total) / 100)
    case Unscalable(fallback) => fallback
  }

  method RemoveDeadTargets(current: TargetInjections, matching: seq<Target>) returns (kept: TargetInjections)
    ensures kept.Keys == current.Keys * Elements(matching)
    ensures forall t :: t in kept ==> kept[t] == current[t]
  {
    kept := map[];
    for i := 0 to |matching|
      invariant kept.Keys == current.Keys * Elements(matching[..i])
      invariant forall t :: t in kept ==> kept[t] == current[t]
    {
      assert Elements(matching[..i + 1]) == Elements(matching[..i]) + {matching[i]};
      if matching[i] in current {
        kept := kept[matching[i] := current[matching[i]]];
      }
    }
    assert matching[..|matching|] == matching;
  }

  method AnyAlive(pod: ChaosPod) returns (alive: bool)
    ensures alive <==> exists c :: c in pod.containers && c != Exited(0)
  {
    for j := 0 to |pod.containers|
      invariant forall k :: 0 <= k < j ==> pod.containers[k] == Exited(0)
    {
      if pod.containers[j] != Exited(0) {
        assert pod.containers[j] in pod.containers;
        return true;
      }
    }
    return false;
  }

  method AnyRunning(pods: seq<ChaosPod>) returns (running: bool)
    ensures running <==> ActivelyDisrupted(pods)
  {
    running := false;
    for i := 0 to |pods|
      invariant running ==> ActivelyDisrupted(pods)
      invariant !running ==> forall k, c :: 0 <= k < i && c in pods[k].containers ==> c == Exited(0)
    {
      var alive := AnyAlive(pods[i]);
      if alive {
        assert pods[i] in pods;
        running := true;
      }
    }
  }

  method SharesKind(spec: Spec, pods: seq<ChaosPod>) returns (shares: bool)
    ensures shares <==> exists p :: p in pods && p.kind in spec.kinds
  {
    var byKind: set<Kind> := set p | p in pods :: p.kind;
    shares := false;
    for i := 0 to |spec.kinds|
      invariant shares <==> exists k :: k in spec.kinds[..i] && k in byKind
    {
      shares := shares || spec.kinds[i] in byKind;
    }
    if shares {
      var k :| k in spec.kinds && k in byKind;
      var p :| p in pods && p.kind == k;
    } else {
      forall p | p in pods ensures p.kind !in spec.kinds {
        assert p.kind in byKind;
      }
    }
  }

  method GetEligibleTargets(spec: Spec, current: TargetInjections, obs: Observed)
    returns (ok: bool, eligible: TargetInjections)
    ensures ok <==> forall t :: t in obs.Matching() && t !in current ==> obs.Pods(t).Some?
    ensures ok ==> eligible.Keys == EligibleSet(spec, current.Keys, obs)
    ensures forall t :: t in eligible ==> eligible[t] == FreshInjections(spec)
  {
    var potential := obs.Matching();
    ok, eligible := true, map[];
    for i := 0 to |potential|
      invariant forall t :: t in potential[..i] && t !in current ==> obs.Pods(t).Some?
      invariant eligible.Keys == EligibleSet(spec, current.Keys, obs) * Elements(potential[..i])
      invariant forall t :: t in eligible ==> eligible[t] == FreshInjections(spec)
    {
      var t := potential[i];
      assert Elements(potential[..i + 1]) == Elements(potential[..i]) + {t};
      if t in current {
        continue;
      }
      if obs.Pods(t).None? {
        return false, map[];
      }
      var pods := obs.Pods(t).value;
      var running := AnyRunning(pods);
      if running {
        if !spec.allowDisruptedTargets {
          continue;
        }
        var shares := SharesKind(spec, pods);
        if shares {
          continue;
        }
      }
      eligible := eligible[t := FreshInjections(spec)];
    }
    assert potential[..|potential|] == potential;
  }

  // parseRandomTargets: draw without replacement by swapping the drawn name to the end.
  method DrawTargets(limit: int, names: seq<Target>, draws: seq<nat>) returns (drawn: seq<Target>)
    requires Distinct(names)
    ensures Distinct(drawn) && Elements(drawn) <= Elements(names)
    ensures |drawn| == Min(Max(limit, 0), |names|)
  {
    drawn := [];
    var left := names;
    var i := 0;
    while i < limit && |left| > 0
      invariant 0 <= i <= Max(limit, 0) && |drawn| == i && |left| == |names| - i
      invariant Distinct(left) && Distinct(drawn)
      invariant forall t :: t in drawn ==> t in names && t !in left
      invariant forall t :: t in left ==> t in names
      decreases |left|
    {
      var index := if i < |draws| then draws[i] % |left| else 0;
      var name := left[index];
      var swapped := left[index := left[|left| - 1]][|left| - 1 := name];
      left := swapped[..|left| - 1];
      assert name !in left && name !in drawn;
      drawn := drawn + [name];
      i := i + 1;
    }
  }

  method AddTargets(current: TargetInjections, count: int, eligible: TargetInjections, draws: seq<nat>)
    returns (grown: TargetInjections)
    requires current.Keys !! eligible.Keys
    ensures current.Keys <= grown.Keys <= current.Keys + eligible.Keys
    ensures forall t :: t in grown ==> grown[t] == if t in current then current[t] else eligible[t]
    ensures |grown.Keys| == |current.Keys| + Min(Max(count, 0), |eligible.Keys|)
  {
    var names := AnyOrder(eligible.Keys);
    var drawn := DrawTargets(count, names, draws);
    DistinctCount(drawn);
    grown := Install(current, eligible, drawn);
    DisjointCount(grown.Keys, current.Keys, Elements(drawn));
  }

  // The callback of AddTargets, called on each drawn name.
  method Install(current: TargetInjections, eligible: TargetInjections, drawn: seq<Target>)
    returns (grown: TargetInjections)
    requires current.Keys !! eligible.Keys && Elements(drawn) <= eligible.Keys
    ensures grown.Keys == current.Keys + Elements(drawn)
    ensures forall t :: t in grown ==> grown[t] == if t in current then current[t] else eligible[t]
  {
    grown := current;
    for i := 0 to |drawn|
      invariant forall t :: t in grown <==> t in current || t in drawn[..i]
      invariant forall t :: t in grown ==> t in current || t in eligible
      invariant forall t :: t in grown ==> grown[t] == if t in current then current[t] else eligible[t]
    {
      assert drawn[i] in Elements(drawn);
      grown := grown[drawn[i] := eligible[drawn[i]]];
    }
  }

  method RemoveTargets(current: TargetInjections, count: int, draws: seq<nat>) returns (shrunk: TargetInjections)
    ensures shrunk.Keys <= current.Keys
    ensures forall t :: t in shrunk ==> shrunk[t] == current[t]
    ensures |shrunk.Keys| == |current.Keys| - Min(Max(count, 0), |current.Keys|)
  {
    var names := AnyOrder(current.Keys);
    var drawn := DrawTargets(count, names, draws);
    DistinctCount(drawn);
    shrunk := Uninstall(current, drawn);
    DisjointCount(current.Keys, shrunk.Keys, Elements(drawn));
  }

  // The callback of RemoveTargets, called on each drawn name.
  method Uninstall(current: TargetInjections, drawn: seq<Target>) returns (shrunk: TargetInjections)
    ensures shrunk.Keys == current.Keys - Elements(drawn)
    ensures forall t :: t in shrunk ==> shrunk[t] == current[t]
  {
    shrunk := current;
    for i := 0 to |drawn|
      invariant forall t :: t in shrunk <==> t in current && t !in drawn[..i]
      invariant forall t :: t in shrunk ==> shrunk[t] == current[t]
    {
      shrunk := shrunk - {drawn[i]};
    }
  }

  // The choice of `wanted` targets among the live ones and the eligible ones: live targets go last
  // and keep what is known of their injections, new ones start as not injected.
  ghost predicate ChosenFrom(spec: Spec, before: TargetInjections, live: set<Target>, eligible: set<Target>,
                             wanted: int, chosen: TargetInjections)
  {
    && chosen.Keys <= live + eligible
    && |chosen.Keys| == wanted
    && (forall t :: t in chosen && t in live && t in before ==> chosen[t] == before[t])
    && (forall t :: t in chosen && t !in live ==> chosen[t] == FreshInjections(spec))
    && (|live| <= wanted ==> live <= chosen.Keys)
    && (wanted <= |live| ==> chosen.Keys <= live)
  }

  // What a pass that reaches its status write promises about the targets it chose.
  ghost predicate Chosen(spec: Spec, before: TargetInjections, obs: Observed, chosen: TargetInjections) {
    var live := LiveSet(before, obs);
    ChosenFrom(spec, before, live, EligibleSet(spec, live, obs), Wanted(spec, before, obs), chosen)
  }

  function LiveSet(before: TargetInjections, obs: Observed): set<Target> {
    before.Keys * Elements(obs.Matching())
  }

  // The current targets that still match.
  function LiveOnly(before: TargetInjections, obs: Observed): TargetInjections {
    map t | t in before && t in obs.Matching() :: before[t]
  }

  // The chaos pods of every target that may be added could be listed.
  predicate Listable(before: TargetInjections, obs: Observed) {
    forall t :: t in obs.Matching() && t !in LiveSet(before, obs) ==> obs.Pods(t).Some?
  }

  // Targets that were chosen once and for all.
  predicate Fixed(spec: Spec, before: TargetInjections) {
    spec.staticTargeting && before != map[]
  }

  // The targets a pass goes on with.
  ghost predicate Picks(spec: Spec, before: TargetInjections, obs: Observed, after: TargetInjections) {
    if Fixed(spec, before) then after == before
    else if Wanted(spec, before, obs) < 1 then after == LiveOnly(before, obs)
    else Chosen(spec, before, obs, after)
  }

  // No target has to be drawn.
  predicate Settled(spec: Spec, before: TargetInjections, obs: Observed) {
    Fixed(spec, before) || Wanted(spec, before, obs) < 1 || Wanted(spec, before, obs) == |LiveSet(before, obs)|
  }

  function Settlement(spec: Spec, before: TargetInjections, obs: Observed): TargetInjections {
    if Fixed(spec, before) then before else LiveOnly(before, obs)
  }

  // Then there is one choice only.
  lemma SettledPicks(spec: Spec, before: TargetInjections, obs: Observed, after: TargetInjections)
    requires Picks(spec, before, obs, after) && Settled(spec, before, obs)
    ensures after == Settlement(spec, before, obs)
  {
    if !Fixed(spec, before) && Wanted(spec, before, obs) >= 1 {
      assert after.Keys == LiveSet(before, obs) == LiveOnly(before, obs).Keys;
    }
  }

  // A target that was added names every kind.
  lemma AddedIsFresh(spec: Spec, before: TargetInjections, obs: Observed, after: TargetInjections, t: Target)
    requires Picks(spec, before, obs, after) && !Fixed(spec, before) && t in after && t !in LiveSet(before, obs)
    ensures after[t] == FreshInjections(spec) && t in EligibleSet(spec, LiveSet(before, obs), obs)
  {
  }

  function Wanted(spec: Spec, before: TargetInjections, obs: Observed): int {
    var live := LiveSet(before, obs);
    Min(DesiredCount(spec.count, |obs.Matching()|), |live| + |EligibleSet(spec, live, obs)|)
  }

  // Picks the wanted number of targets once the live and the eligible ones are known.
  method Adjust(spec: Spec, before: TargetInjections, kept: TargetInjections, eligible: TargetInjections, wanted: int,
                draws: seq<nat>) returns (chosen: TargetInjections)
    requires kept.Keys !! eligible.Keys && 0 <= wanted <= |kept.Keys| + |eligible.Keys|
    requires kept.Keys <= before.Keys && forall t :: t in kept ==> kept[t] == before[t]
    requires forall t :: t in eligible ==> eligible[t] == FreshInjections(spec)
    ensures ChosenFrom(spec, before, kept.Keys, eligible.Keys, wanted, chosen)
  {
    if |kept.Keys| < wanted {
      chosen := AddTargets(kept, wanted - |kept.Keys|, eligible, draws);
    } else if |kept.Keys| > wanted {
      chosen := RemoveTargets(kept, |kept.Keys| - wanted, draws);
    } else {
      chosen := kept;
    }
  }

  // The body of the pass once static targeting is ruled out.
  method Choose(spec: Spec, before: TargetInjections, obs: Observed)
    returns (outcome: Outcome, chosen: TargetInjections)
    ensures outcome != Unchanged
    ensures outcome == Selected ==> Wanted(spec, before, obs) >= 1 && Chosen(spec, before, obs, chosen)
    ensures outcome != Selected ==> chosen == LiveOnly(before, obs)
    ensures outcome == NothingToSelect ==> Wanted(spec, before, obs) < 1
    ensures outcome == ListingFailed <==> !Listable(before, obs)
  {
    var kept := RemoveDeadTargets(before, obs.Matching());
    var desired := DesiredCount(spec.count, |obs.Matching()|);
    var ok, eligible := GetEligibleTargets(spec, kept, obs);
    if !ok {
      return ListingFailed, kept;
    }
    var wanted := Min(desired, |kept.Keys| + |eligible.Keys|);
    if wanted < 1 {
      return NothingToSelect, kept;
    }
    outcome := Selected;
    chosen := Adjust(spec, before, kept, eligible, wanted, obs.draws);
  }

  // A failed listing of the matching targets counts as no match: every current target is dropped.
  method SelectTargets(spec: Spec, status: Status, obs: Observed) returns (outcome: Outcome, after: Status)
    ensures outcome == Unchanged <==> Fixed(spec, status.targetInjections)
    ensures outcome == Unchanged ==> after == status
    ensures outcome == ListingFailed <==>
      !Fixed(spec, status.targetInjections) && !Listable(status.targetInjections, obs)
    ensures outcome != ListingFailed ==> Picks(spec, status.targetInjections, obs, after.targetInjections)
    ensures outcome == Selected ==>
      && Chosen(spec, status.targetInjections, obs, after.targetInjections)
      && after.selectedTargetsCount == |after.targetInjections.Keys| == Wanted(spec, status.targetInjections, obs) >= 1
      && after.ignoredTargetsCount == obs.Total() - after.selectedTargetsCount
      && after.desiredTargetsCount == DesiredCount(spec.count, |obs.Matching()|)
    ensures outcome == NothingToSelect ==> Wanted(spec, status.targetInjections, obs) < 1
    ensures outcome == ListingFailed || outcome == NothingToSelect ==>
      after.targetInjections == LiveOnly(status.targetInjections, obs)
    ensures outcome != Unchanged && obs.matching.None? ==> after.targetInjections.Keys == {}
    ensures after.cleanedAt == status.cleanedAt && after.runCount == status.runCount
  {
    if status.targetInjections != map[] && spec.staticTargeting {
      return Unchanged, status;
    }
    var chosen;
    outcome, chosen := Choose(spec, status.targetInjections, obs);
    after := status.(targetInjections := chosen);
    if outcome != ListingFailed {
      after := after.(desiredTargetsCount := DesiredCount(spec.count, |obs.Matching()|));
    }
    if outcome == Selected {
      after := after.(
        selectedTargetsCount := |chosen.Keys|,
        ignoredTargetsCount := obs.Total() - |chosen.Keys|);
    }
  }
}
