// The disruption reconciler (controllers/disruption_controller.go), call by call. Before every API call
// the outside world makes any number of moves, and any call may be refused, or take effect and still
// be reported as failed; the moves and replies are read off a script that is left arbitrary.
module Reconciler {
  import opened DisruptionTypes
  import opened Cluster
  import opened TargetSelection

  const SECOND := 1_000_000_000

  datatype Reply = Answered | Refused | Lost

  datatype Health = Healthy | Unhealthy | Unknown

  datatype Turn = Turn(moves: seq<Move>, reply: Reply, health: Health)

  datatype Config = Config(
    deleteOnly: bool, deletionTimeout: int, finalizerDelay: int, expiredGcDelay: Option<int>)

  class ApiServer {
    var w: World
    var script: seq<Turn>
    ghost var log: seq<World>   // every state passed through, in order

    ghost predicate Valid()
      reads this
    {
      Inv(w) && Recorded(log) && log != [] && log[|log| - 1] == w
    }

    constructor (now: int)
      ensures Valid() && w.obj.None? && w.pods == map[] && w.now == now && script == []
    {
      w := World(None, map[], {}, now, 0, 0, [], {});
      script := [];
      log := [World(None, map[], {}, now, 0, 0, [], {})];
    }

    method Become(w': World)
      requires Valid() && Inv(w') && w.cleaned <= w'.cleaned
      modifies this`w, this`log
      ensures Valid() && w == w' && log == old(log) + [w']
    {
      assert (log + [w'])[..|log|] == log;
      w := w';
      log := log + [w'];
    }

    // The outside world moves, and then the pending call gets its reply.
    method Interfere() returns (turn: Turn)
      requires Valid()
      modifies this
      ensures Valid() && Tame(old(w), w) && old(log) <= log
      ensures old(script) == [] ==> script == [] && w == old(w) && turn.reply == Answered && turn.health == Healthy
    {
      if script == [] {
        return Turn([], Answered, Healthy);
      }
      turn := script[0];
      script := script[1..];
      for i := 0 to |turn.moves|
        invariant Valid() && Tame(old(w), w) && old(log) <= log
      {
        ApplyKeepsInv(w, turn.moves[i]);
        TameTrans(old(w), w, Apply(w, turn.moves[i]));
        Become(Apply(w, turn.moves[i]));
      }
    }

    method ListPods() returns (found: Option<map<nat, Pod>>)
      requires Valid()
      modifies this
      ensures Valid() && Tame(old(w), w) && old(log) <= log
      ensures found.Some? ==> found.value == w.pods
      ensures old(script) == [] ==> script == [] && w == old(w) && found.Some?
    {
      var turn := Interfere();
      found := if turn.reply == Answered then Some(w.pods) else None;
    }

    method TargetHealth() returns (health: Health)
      requires Valid()
      modifies this
      ensures Valid() && Tame(old(w), w) && old(log) <= log
      ensures old(script) == [] ==> script == [] && w == old(w) && health == Healthy
    {
      var turn := Interfere();
      health := if turn.reply == Answered then turn.health else Unknown;
    }

    // WaitForPodCreation.
    method PodVisible() returns (ok: bool)
      requires Valid()
      modifies this
      ensures Valid() && Tame(old(w), w) && old(log) <= log
      ensures old(script) == [] ==> script == [] && w == old(w) && ok
    {
      var turn := Interfere();
      ok := turn.reply == Answered;
    }

    // Some(b): whether the target exists; None: the read failed.
    method GetTarget(t: Target) returns (exists_: Option<bool>)
      requires Valid()
      modifies this
      ensures Valid() && Tame(old(w), w) && old(log) <= log
      ensures old(script) == [] ==> script == [] && w == old(w) && exists_ == Some(t in w.targets)
    {
      var turn := Interfere();
      exists_ := if turn.reply == Answered then Some(t in w.targets) else None;
    }

    method DeletePod(id: nat)
      requires Valid()
      modifies this
      ensures Valid() && Tame(old(w), w) && old(log) <= log
      ensures old(script) == [] ==> script == [] && w == Cluster.DeletePod(old(w), id)
    {
      hide Inv, Recorded;
      var turn := Interfere();
      if turn.reply != Refused {
        PodsShrinkKeepsInv(w, Cluster.DeletePod(w, id));
        TameTrans(old(w), w, Cluster.DeletePod(w, id));
        Become(Cluster.DeletePod(w, id));
      }
    }

    method DropPodFinalizer(id: nat) returns (ok: bool)
      requires Valid()
      modifies this
      ensures Valid() && Tame(old(w), w) && old(log) <= log
      ensures old(script) == [] ==> script == [] && ok && w == Cluster.DropPodFinalizer(old(w), id)
    {
      hide Inv, Recorded;
      var turn := Interfere();
      ok := turn.reply == Answered;
      if turn.reply != Refused {
        PodsShrinkKeepsInv(w, Cluster.DropPodFinalizer(w, id));
        TameTrans(old(w), w, Cluster.DropPodFinalizer(w, id));
        Become(Cluster.DropPodFinalizer(w, id));
      }
    }

    method Delete()
      requires Valid()
      modifies this
      ensures Valid() && Tame(old(w), w) && old(log) <= log
    {
      hide Inv, Recorded;
      var turn := Interfere();
      if turn.reply != Refused {
        DeleteKeepsInv(w);
        TameTrans(old(w), w, Cluster.Delete(w));
        Become(Cluster.Delete(w));
      }
    }

    // Update: refused on a version conflict; on success the caller's copy becomes what is stored.
    method Update(d: Disruption) returns (ok: bool, d': Disruption)
      requires Valid() && MayWriteMeta(w, d)
      modifies this
      ensures Valid() && old(log) <= log
      ensures d.finalizer ==> Tame(old(w), w)
      ensures ok && d.finalizer ==> w.obj == Some(d') && d'.finalizer && Current(old(w), d)
      ensures ok && d.finalizer ==> d'.deletedAt == d.deletedAt && d'.status.cleanedAt == d.status.cleanedAt
      ensures !ok ==> d' == d
      ensures RunsGrow(old(w), w, 0)
      ensures old(script) == [] ==> script == [] && ok == Current(old(w), d) && w == UpdateMeta(old(w), d)
    {
      hide Inv, Recorded;
      var turn := Interfere();
      TameKeepsRights(old(w), w, d);
      ok, d' := false, d;
      if turn.reply != Refused && Current(w, d) {
        ghost var before := w;
        UpdateMetaKeepsInv(w, d);
        Become(UpdateMeta(w, d));
        RunsAdd(old(w), before, w, 0, 0);
        if d.finalizer {
          TameTrans(old(w), before, w);
        }
        if turn.reply == Answered {
          ok := true;
          d' := if w.obj.Some? then w.obj.value else d;
        }
      }
    }

    method UpdateStatus(d: Disruption) returns (ok: bool, d': Disruption)
      requires Valid() && MayWriteStatus(w, d)
      modifies this
      ensures Valid() && old(log) <= log
      ensures KeepsCleanedAt(old(w), d) ==> Gentle(old(w), w)
      ensures KeepsRuns(old(w), d, 0) ==> RunsGrow(old(w), w, 0)
      ensures KeepsRuns(old(w), d, 1) ==> RunsGrow(old(w), w, 0) || (RunsGrow(old(w), w, 1) && !Current(w, d))
      ensures !Current(old(w), d) ==> RunsGrow(old(w), w, 0)
      ensures Copy(old(w), d) ==> Copy(w, d')
      ensures ok ==> Current(old(w), d) && d'.status == d.status && d'.deletedAt == old(w.obj.value.deletedAt)
      ensures ok ==> d'.finalizer == old(w.obj.value.finalizer) && d'.uid == old(w.obj.value.uid) && w.obj == Some(d')
      ensures ok ==> d'.spec == old(w.obj.value.spec)
      ensures !ok ==> d' == d
      ensures ok && d.status != old(w.obj.value.status) ==> !Current(w, d)
      ensures old(script) == [] ==>
        script == [] && ok == Current(old(w), d) && w == Cluster.UpdateStatus(old(w), d)
    {
      hide Inv, Recorded, RunsGrow;
      var turn := Interfere();
      TameKeepsRights(old(w), w, d);
      ok, d' := false, d;
      if turn.reply != Refused && Current(w, d) {
        ghost var before := w;
        UpdateStatusKeepsInv(w, d);
        Become(Cluster.UpdateStatus(w, d));
        if KeepsCleanedAt(old(w), d) {
          TameTrans(old(w), before, w);
        }
        if KeepsRuns(old(w), d, 0) {
          RunsAdd(old(w), before, w, 0, 0);
        } else if KeepsRuns(old(w), d, 1) {
          RunsAdd(old(w), before, w, 0, 1);
        }
        if turn.reply == Answered {
          ok, d' := true, w.obj.value;
        }
      }
    }

    method CreatePod(t: Target, k: Kind) returns (ok: bool)
      requires Valid() && MayHavePods(w) && (t, k) !in Pairs(w)
      modifies this
      ensures Valid() && old(log) <= log
      ensures Created(old(w), w, t, k) && RunsGrow(old(w), w, 0)
      ensures old(script) == [] ==>
        && script == [] && ok && Undisturbed(old(w), w) && (t, k) in Pairs(w) && w.obj == old(w.obj)
        && w.nextPod == old(w.nextPod) + 1
    {
      hide Inv, Recorded;
      var turn := Interfere();
      ok := turn.reply == Answered;
      if turn.reply != Refused {
        CreatePodKeepsInv(w, t, k);
        CreatePodAdds(w, t, k);
        Become(Cluster.CreatePod(w, t, k));
      }
    }
  }

  // At most a pod for (t, k) was added; the object still guards its pods.
  ghost predicate Created(w: World, w': World, t: Target, k: Kind) {
    && Progress(w, w') && MayHavePods(w')
    && Pairs(w') <= Pairs(w) + {(t, k)}
  }

  // New pods, if any, are for t.
  ghost predicate OnlyFor(w: World, w': World, t: Target) {
    forall p :: p in Pairs(w') && p !in Pairs(w) ==> p.0 == t
  }

  lemma TameAddsNoPod(w: World, w': World)
    requires Gentle(w, w')
    ensures Pairs(w') <= Pairs(w)
  {
  }

  /* ---------- chaos pods of one target ---------- */

  // State in which the reconciler works on an object it has fenced with its finalizer update: the
  // object guards its pods and the copy in hand has not declared it clean.
  ghost predicate Injecting(w: World, d: Disruption) {
    MayHavePods(w) && Copy(w, d) && d.finalizer && d.status.cleanedAt.None?
  }

  predicate Skips(d: Disruption, t: Target, k: Kind) {
    && k == NODE_FAILURE && d.spec.staticTargeting
    && t in d.status.targetInjections && k in d.status.targetInjections[t]
    && d.status.targetInjections[t][k] != NotInjected
  }

  predicate RunsExhausted(d: Disruption) {
    d.spec.maxRuns.Some? && d.status.runCount >= d.spec.maxRuns.value
  }

  // Some kind of the disruption has no pod on t and is not to be skipped.
  ghost predicate NeedsPods(w: World, d: Disruption, t: Target) {
    exists k :: k in d.spec.kinds && (t, k) !in Pairs(w) && !Skips(d, t, k)
  }

  // No pod can be created for t.
  ghost predicate Blocked(w: World, d: Disruption, t: Target) {
    || (d.spec.level == PodLevel && t !in w.targets)
    || d.spec.endsAt - w.now < SECOND
    || RunsExhausted(d)
  }

  ghost predicate Idle(w: World, d: Disruption, t: Target) {
    NeedsPods(w, d, t) ==> Blocked(w, d, t)
  }

  predicate Unmet(w: World, d: Disruption, t: Target, k: Kind) {
    (t, k) !in Pairs(w) && !Skips(d, t, k)
  }

  // The j-th kind is the first that has no pod on t and is not to be skipped.
  predicate FirstUnmet(w: World, d: Disruption, t: Target, j: nat) {
    j < |d.spec.kinds| && Unmet(w, d, t, d.spec.kinds[j]) && forall i :: 0 <= i < j ==> !Unmet(w, d, t, d.spec.kinds[i])
  }

  // The status of t names every kind.
  predicate Complete(d: Disruption, t: Target) {
    t in d.status.targetInjections && forall k :: k in d.spec.kinds ==> k in d.status.targetInjections[t]
  }

  // There is nothing to do for t: no kind is unmet, or the first unmet one has a status and no pod can be created.
  ghost predicate PassedBy(w: World, d: Disruption, t: Target) {
    forall j: nat :: FirstUnmet(w, d, t, j) ==>
      Blocked(w, d, t) && t in d.status.targetInjections && d.spec.kinds[j] in d.status.targetInjections[t]
  }

  lemma {:induction false} SomeFirstUnmet(w: World, d: Disruption, t: Target, n: nat) returns (j: nat)
    requires n < |d.spec.kinds| && Unmet(w, d, t, d.spec.kinds[n])
    ensures FirstUnmet(w, d, t, j)
    decreases n
  {
    if i: nat :| i < n && Unmet(w, d, t, d.spec.kinds[i]) {
      j := SomeFirstUnmet(w, d, t, i);
    } else {
      j := n;
    }
  }

  // Where the status of the target is complete, nothing to do means that it is idle.
  lemma PassedByIsIdle(w: World, d: Disruption, t: Target)
    requires Complete(d, t)
    ensures PassedBy(w, d, t) <==> Idle(w, d, t)
  {
    if NeedsPods(w, d, t) {
      var k :| k in d.spec.kinds && (t, k) !in Pairs(w) && !Skips(d, t, k);
      var n :| 0 <= n < |d.spec.kinds| && d.spec.kinds[n] == k;
      var j := SomeFirstUnmet(w, d, t, n);
    }
  }

  // At most one run was stored, and if so the copy in hand is behind.
  predicate AtMostOneRun(w: World, w': World, d': Disruption) {
    RunsGrow(w, w', 0) || (RunsGrow(w, w', 1) && !Current(w', d'))
  }

  // Exactly one run was stored.
  predicate RunStored(w: World, w': World) {
    && w.obj.Some? && w'.obj.Some? && w'.obj.value.uid == w.obj.value.uid
    && w'.obj.value.status.runCount == w.obj.value.status.runCount + 1
  }

  // The object is stored with the targets of this copy.
  predicate Holds(w: World, d: Disruption) {
    w.obj.Some? && w.obj.value.status.targetInjections == d.status.targetInjections
  }

  // The kinds that have no pod on t.
  function Lacks(w: World, d: Disruption, t: Target): set<Kind> {
    set k | k in d.spec.kinds && (t, k) !in Pairs(w)
  }

  // In an undisturbed step, what exists stays.
  ghost predicate Undisturbed(w: World, w': World) {
    && w'.targets == w.targets && w'.now == w.now
    && Pairs(w) <= Pairs(w')
  }

  // The copy after the step differs at most by a higher run count.
  predicate SameButRuns(d: Disruption, d': Disruption) {
    && d.status.runCount <= d'.status.runCount
    && d' == d.(status := d.status.(runCount := d'.status.runCount))
  }

  lemma CreatePodAdds(w: World, t: Target, k: Kind)
    requires Inv(w)
    ensures Undisturbed(w, Cluster.CreatePod(w, t, k)) && (t, k) in Pairs(Cluster.CreatePod(w, t, k))
  {
    var w' := Cluster.CreatePod(w, t, k);
    assert w.nextPod in w'.pods && forall id :: id in w.pods ==> id in w'.pods && w'.pods[id] == w.pods[id];
  }

  lemma IdleStays(w: World, d: Disruption, w': World, d': Disruption, t: Target)
    requires Idle(w, d, t) && Undisturbed(w, w') && SameButRuns(d, d')
    ensures Idle(w', d', t)
  {
    if NeedsPods(w', d', t) {
      var k :| k in d'.spec.kinds && (t, k) !in Pairs(w') && !Skips(d', t, k);
      assert (t, k) !in Pairs(w) && !Skips(d, t, k);
    }
  }

  // The loop of createChaosPods: one pod per kind, unless one is found.
  method CreateMissing(api: ApiServer, d: Disruption, t: Target) returns (ok: bool, created: bool)
    requires api.Valid() && Injecting(api.w, d)
    modifies api
    ensures api.Valid() && old(api.log) <= api.log && Progress(old(api.w), api.w) && Injecting(api.w, d)
    ensures OnlyFor(old(api.w), api.w, t) && RunsGrow(old(api.w), api.w, 0)
    ensures old(api.script) == [] ==>
      api.script == [] && Undisturbed(old(api.w), api.w) && api.w.obj == old(api.w.obj) && ok
    ensures old(api.script) == [] ==> forall k :: k in d.spec.kinds ==> (t, k) in Pairs(api.w)
    ensures old(api.script) == [] ==> (created <==> exists k :: k in d.spec.kinds && (t, k) !in Pairs(old(api.w)))
    ensures old(api.script) == [] ==> api.w.nextPod == old(api.w.nextPod) + |Lacks(old(api.w), d, t)|
  {
    hide Inv, Recorded, Injecting, Undisturbed, OnlyFor, Progress, Pairs;
    ok, created := true, false;
    NothingCreated(api.w, t);
    NothingMade(api.w, d, t);
    for i := 0 to |d.spec.kinds|
      invariant api.Valid() && old(api.log) <= api.log && Injecting(api.w, d)
      invariant Making(old(api.w), api.w, t)
      invariant old(api.script) == [] ==> ok && api.script == [] && MadeSoFar(old(api.w), api.w, d, t, i, created)
    {
      ghost var before := api.w;
      var visible;
      ok, visible := CreateOne(api, d, t, d.spec.kinds[i]);
      MakingMore(old(api.w), before, api.w, t, d.spec.kinds[i]);
      if !ok {
        return;
      }
      if old(api.script) == [] {
        MadeMore(old(api.w), before, api.w, d, t, i, created, visible);
      }
      created := created || visible;
    }
    if old(api.script) == [] {
      MadeWhole(old(api.w), api.w, d, t, created);
    }
  }

  lemma NothingMade(w: World, d: Disruption, t: Target)
    ensures MadeSoFar(w, w, d, t, 0, false)
  {
    assert LacksUpTo(w, d, t, 0) == {};
  }

  lemma MadeWhole(w: World, w': World, d: Disruption, t: Target, created: bool)
    requires MadeSoFar(w, w', d, t, |d.spec.kinds|, created)
    ensures w'.nextPod == w.nextPod + |Lacks(w, d, t)|
  {
    assert d.spec.kinds[..|d.spec.kinds|] == d.spec.kinds;
    assert LacksUpTo(w, d, t, |d.spec.kinds|) == Lacks(w, d, t);
  }

  // Of the first n kinds, those that have no pod on t.
  function LacksUpTo(w: World, d: Disruption, t: Target, n: nat): set<Kind>
    requires n <= |d.spec.kinds|
  {
    set k | k in d.spec.kinds[..n] && (t, k) !in Pairs(w)
  }

  lemma MadeMore(w: World, w1: World, w2: World, d: Disruption, t: Target, n: nat, created: bool, visible: bool)
    requires MadeSoFar(w, w1, d, t, n, created) && n < |d.spec.kinds| && Undisturbed(w1, w2) && w2.obj == w1.obj
    requires (t, d.spec.kinds[n]) in Pairs(w2)
    requires (visible <==> (t, d.spec.kinds[n]) !in Pairs(w1)) && Pairs(w2) == Pairs(w1) + {(t, d.spec.kinds[n])}
    requires w2.nextPod == w1.nextPod + if visible then 1 else 0
    ensures MadeSoFar(w, w2, d, t, n + 1, created || visible)
  {
    hide Pairs, LacksUpTo;
    var k := d.spec.kinds[n];
    assert k in d.spec.kinds && d.spec.kinds[..n + 1] == d.spec.kinds[..n] + [k];
    LacksNext(w, d, t, n);
    if !visible {
      assert Pairs(w2) == Pairs(w1);
    }
  }

  lemma LacksNext(w: World, d: Disruption, t: Target, n: nat)
    requires n < |d.spec.kinds|
    ensures var k := d.spec.kinds[n];
      |LacksUpTo(w, d, t, n + 1)| ==
      |LacksUpTo(w, d, t, n)| + if (t, k) !in Pairs(w) && k !in d.spec.kinds[..n] then 1 else 0
  {
    hide Pairs;
    var k := d.spec.kinds[n];
    assert d.spec.kinds[..n + 1] == d.spec.kinds[..n] + [k];
    if (t, k) !in Pairs(w) && k !in d.spec.kinds[..n] {
      assert LacksUpTo(w, d, t, n + 1) == LacksUpTo(w, d, t, n) + {k};
    } else {
      assert LacksUpTo(w, d, t, n + 1) == LacksUpTo(w, d, t, n);
    }
  }

  ghost predicate Making(w: World, w': World, t: Target) {
    Progress(w, w') && OnlyFor(w, w', t) && RunsGrow(w, w', 0)
  }

  // After n kinds, undisturbed.
  ghost predicate MadeSoFar(w: World, w': World, d: Disruption, t: Target, n: nat, created: bool) {
    && n <= |d.spec.kinds| && Undisturbed(w, w') && w'.obj == w.obj
    && (forall k :: (t, k) in Pairs(w') <==> (t, k) in Pairs(w) || k in d.spec.kinds[..n])
    && w'.nextPod == w.nextPod + |LacksUpTo(w, d, t, n)|
    && (!created ==> Pairs(w') == Pairs(w))
    && (created ==> exists k :: k in d.spec.kinds && (t, k) !in Pairs(w))
  }

  lemma NothingCreated(w: World, t: Target)
    ensures Making(w, w, t) && Undisturbed(w, w)
  {
  }

  lemma MakingMore(w: World, w1: World, w2: World, t: Target, k: Kind)
    requires Making(w, w1, t) && Created(w1, w2, t, k) && RunsGrow(w1, w2, 0)
    ensures Making(w, w2, t)
  {
    hide Pairs;
    RunsAdd(w, w1, w2, 0, 0);
  }

  // One turn of that loop: visible says that a pod was created and seen.
  method CreateOne(api: ApiServer, d: Disruption, t: Target, k: Kind) returns (ok: bool, visible: bool)
    requires api.Valid() && Injecting(api.w, d)
    modifies api
    ensures api.Valid() && old(api.log) <= api.log && Injecting(api.w, d)
    ensures Created(old(api.w), api.w, t, k) && RunsGrow(old(api.w), api.w, 0)
    ensures old(api.script) == [] ==>
      && api.script == [] && Undisturbed(old(api.w), api.w) && ok
      && (t, k) in Pairs(api.w) && api.w.obj == old(api.w.obj)
      && (visible <==> (t, k) !in Pairs(old(api.w))) && Pairs(api.w) == Pairs(old(api.w)) + {(t, k)}
      && api.w.nextPod == old(api.w.nextPod) + if visible then 1 else 0
  {
    hide Inv, Recorded, Tame, RunsGrow;
    ok, visible := true, false;
    var found := api.ListPods();
    TameIsMaking(old(api.w), api.w, d, t, k);
    if found.None? {
      return false, false;
    }
    if exists id :: id in found.value && found.value[id].target == t && found.value[id].kind == k {
      return true, false;
    }
    ghost var before := api.w;
    ok := api.CreatePod(t, k);
    ProgressKeepsCopy(before, api.w, d);
    CreatedTrans(old(api.w), before, api.w, t, k);
    if !ok {
      return false, false;
    }
    ghost var after := api.w;
    visible := api.PodVisible();
    TameIsMaking(after, api.w, d, t, k);
    CreatedTrans(old(api.w), after, api.w, t, k);
  }

  lemma TameIsMaking(w: World, w': World, d: Disruption, t: Target, k: Kind)
    requires Tame(w, w') && Injecting(w, d)
    ensures Injecting(w', d) && Created(w, w', t, k) && RunsGrow(w, w', 0) && Pairs(w') <= Pairs(w)
  {
    TameKeepsRights(w, w', d);
    TameAddsNoPod(w, w');
  }

  lemma CreatedTrans(w: World, w1: World, w2: World, t: Target, k: Kind)
    requires Created(w, w1, t, k) && Created(w1, w2, t, k) && RunsGrow(w, w1, 0) && RunsGrow(w1, w2, 0)
    ensures Created(w, w2, t, k) && RunsGrow(w, w2, 0)
  {
    RunsAdd(w, w1, w2, 0, 0);
  }

  datatype Creation = Done | TargetNotFound | CreationFailed

  // The checks of createChaosPods before any pod is made; None means go ahead.
  method Preflight(api: ApiServer, d: Disruption, t: Target) returns (stop: Option<Creation>)
    requires api.Valid() && Injecting(api.w, d)
    modifies api
    ensures api.Valid() && old(api.log) <= api.log && Tame(old(api.w), api.w) && Injecting(api.w, d)
    ensures old(api.script) == [] ==> api.script == [] && api.w == old(api.w)
    ensures old(api.script) == [] && stop.Some? ==> stop.value != CreationFailed && Idle(api.w, d, t)
    ensures old(api.script) == [] ==> (stop.Some? <==> Blocked(api.w, d, t) || d.spec.kinds == [])
  {
    hide Inv, Recorded;
    if d.spec.level == PodLevel {
      var there := api.GetTarget(t);
      TameKeepsRights(old(api.w), api.w, d);
      if there.None? {
        return Some(CreationFailed);
      }
      if !there.value {
        return Some(TargetNotFound);
      }
    }
    if d.spec.kinds == [] || d.spec.endsAt - api.w.now < SECOND || RunsExhausted(d) {
      return Some(Done);
    }
    return None;
  }

  // createChaosPods. The run count is written through a deep copy, so after a new run the copy in hand is one version
  // behind. Undisturbed, a target for which no pod can be created is left alone; else, if a pod was missing, a run is
  // stored when the copy is current and the call fails when it is not.
  method CreateChaosPods(api: ApiServer, d: Disruption, t: Target) returns (res: Creation, d': Disruption)
    requires api.Valid() && Injecting(api.w, d)
    modifies api
    ensures api.Valid() && old(api.log) <= api.log && Progress(old(api.w), api.w)
    ensures Injecting(api.w, d') && SameButRuns(d, d')
    ensures AtMostOneRun(old(api.w), api.w, d') && (!Current(old(api.w), d) ==> RunsGrow(old(api.w), api.w, 0))
    ensures OnlyFor(old(api.w), api.w, t)
    ensures old(api.script) == [] ==>
      && api.script == [] && Undisturbed(old(api.w), api.w)
      && (res != CreationFailed ==> Idle(api.w, d', t))
      && (Blocked(old(api.w), d, t) ==> res != CreationFailed && d' == d && api.w == old(api.w))
      && (!Current(old(api.w), d) ==> api.w.obj == old(api.w.obj))
      && (Holds(old(api.w), d) ==> Holds(api.w, d'))
    ensures old(api.script) == [] && !Blocked(old(api.w), d, t) ==>
      api.w.nextPod == old(api.w.nextPod) + |Lacks(old(api.w), d, t)|
    ensures old(api.script) == [] && !Blocked(old(api.w), d, t) ==>
      (exists k :: k in d.spec.kinds && (t, k) !in Pairs(old(api.w))) ==>
      if Current(old(api.w), d) then RunStored(old(api.w), api.w) && !Current(api.w, d') else res == CreationFailed
  {
    hide Inv, Recorded, Tame, Gentle, Progress, RunsGrow, OnlyFor, Undisturbed, Pairs;
    d' := d;
    NothingCreated(api.w, t);
    var stop := Preflight(api, d, t);
    TameIsProgress(old(api.w), api.w, t);
    if stop.Some? {
      if d.spec.kinds == [] {
        assert Lacks(old(api.w), d, t) == {};
      }
      return stop.value, d;
    }
    ghost var before := api.w;
    var ok, created := CreateMissing(api, d, t);
    ProgressTrans(old(api.w), before, api.w, t, 0, 0);
    ghost var after := api.w;
    ProgressKeepsCopy(old(api.w), after, d);
    if !ok {
      return CreationFailed, d;
    }
    res := Done;
    if created {
      res, d' := CountRun(api, d);
      RunsThrough(old(api.w), after, api.w, d, d', t);
    }
    if old(api.script) == [] {
      AllMade(old(api.w), after, api.w, d', t);
    }
  }

  lemma AllMade(w: World, w1: World, w2: World, d: Disruption, t: Target)
    requires Undisturbed(w, w1) && (w2 == w1 || Undisturbed(w1, w2)) && forall k :: k in d.spec.kinds ==>
      (t, k) in Pairs(w1)
    ensures Undisturbed(w, w2) && Idle(w2, d, t)
  {
    hide Pairs;
  }

  lemma TameIsProgress(w: World, w': World, t: Target)
    requires Tame(w, w')
    ensures Progress(w, w') && OnlyFor(w, w', t) && RunsGrow(w, w', 0)
  {
    TameAddsNoPod(w, w');
  }

  lemma ProgressTrans(w: World, w1: World, w2: World, t: Target, m: nat, n: nat)
    requires Progress(w, w1) && Progress(w1, w2) && OnlyFor(w, w1, t) && OnlyFor(w1, w2, t)
    requires RunsGrow(w, w1, m) && RunsGrow(w1, w2, n)
    ensures Progress(w, w2) && OnlyFor(w, w2, t) && RunsGrow(w, w2, m + n)
  {
    RunsAdd(w, w1, w2, m, n);
  }

  lemma RunsThrough(w: World, w1: World, w2: World, d: Disruption, d': Disruption, t: Target)
    requires Progress(w, w1) && Progress(w1, w2) && OnlyFor(w, w1, t) && OnlyFor(w1, w2, t)
    requires RunsGrow(w, w1, 0) && AtMostOneRun(w1, w2, d')
    ensures Progress(w, w2) && OnlyFor(w, w2, t) && AtMostOneRun(w, w2, d')
    ensures RunsGrow(w1, w2, 0) ==> RunsGrow(w, w2, 0)
  {
    if RunsGrow(w1, w2, 0) {
      RunsAdd(w, w1, w2, 0, 0);
    } else {
      RunsAdd(w, w1, w2, 0, 1);
    }
  }

  method CountRun(api: ApiServer, d: Disruption) returns (res: Creation, d': Disruption)
    requires api.Valid() && Injecting(api.w, d)
    modifies api
    ensures api.Valid() && old(api.log) <= api.log && Progress(old(api.w), api.w)
    ensures Injecting(api.w, d') && SameButRuns(d, d')
    ensures res == Done || res == CreationFailed
    ensures AtMostOneRun(old(api.w), api.w, d')
    ensures !Current(old(api.w), d) ==> RunsGrow(old(api.w), api.w, 0)
    ensures forall t :: OnlyFor(old(api.w), api.w, t)
    ensures old(api.script) == [] ==> api.script == [] && Undisturbed(old(api.w), api.w)
    ensures old(api.script) == [] ==>
      && api.w.nextPod == old(api.w.nextPod) && (Holds(old(api.w), d) ==> Holds(api.w, d'))
      && if Current(old(api.w), d) then res == Done && RunStored(old(api.w), api.w) && !Current(api.w, d')
         else res == CreationFailed && api.w == old(api.w)
  {
    hide Inv, Recorded;
    var next := d.(status := d.status.(runCount := d.status.runCount + 1));
    var ok, copy := api.UpdateStatus(next);
    TameKeepsRights(old(api.w), api.w, d);
    TameAddsNoPod(old(api.w), api.w);
    if ok {
      return Done, next;
    }
    return CreationFailed, d;
  }

  /* ---------- startInjection ---------- */

  // deleteChaosPod, on a listed pod whose target is not among the chosen ones.
  method DropIfUntargeted(api: ApiServer, d: Disruption, id: nat, pod: Pod)
    requires api.Valid() && (id in api.w.pods ==> api.w.pods[id].target == pod.target)
    modifies api
    ensures api.Valid() && old(api.log) <= api.log && Tame(old(api.w), api.w)
    ensures old(api.script) == [] ==> api.script == [] && SameFor(old(api.w), api.w, d)
    ensures old(api.script) == [] ==>
      api.w ==
        if pod.target !in d.status.targetInjections && !pod.deleting then Cluster.DeletePod(old(api.w), id)
        else old(api.w)
  {
    hide Inv, Recorded;
    if pod.target !in d.status.targetInjections && !pod.deleting {
      api.DeletePod(id);
    }
  }

  method DropUntargeted(api: ApiServer, d: Disruption, listed: map<nat, Pod>)
    requires api.Valid() && listed == api.w.pods
    modifies api
    ensures api.Valid() && old(api.log) <= api.log && Tame(old(api.w), api.w)
    ensures old(api.script) == [] ==> api.script == [] && SameFor(old(api.w), api.w, d)
    ensures old(api.script) == [] ==>
      forall id :: id in api.w.pods && api.w.pods[id].target !in d.status.targetInjections ==> api.w.pods[id].deleting
  {
    hide Inv, Recorded, SameFor;
    SameForStart(api.w, d);
    var todo := listed.Keys;
    while todo != {}
      invariant api.Valid() && old(api.log) <= api.log && Tame(old(api.w), api.w) && todo <= listed.Keys
      invariant old(api.script) == [] ==> api.script == [] && SameFor(old(api.w), api.w, d)
      invariant old(api.script) == [] ==> Dropping(listed, api.w.pods, todo, d)
      decreases todo
    {
      var id :| id in todo;
      ghost var before := api.w;
      DropIfUntargeted(api, d, id, listed[id]);
      TameTrans(old(api.w), before, api.w);
      if old(api.script) == [] {
        SameForTrans(old(api.w), before, api.w, d);
      }
      todo := todo - {id};
    }
  }

  // Of the pods listed, those seen to already are under deletion if their target is not chosen.
  ghost predicate Dropping(listed: map<nat, Pod>, pods: map<nat, Pod>, todo: set<nat>, d: Disruption) {
    && pods.Keys <= listed.Keys
    && (forall id :: id in pods ==>
          if id in todo || listed[id].target in d.status.targetInjections then pods[id] == listed[id]
          else pods[id].deleting)
  }

  lemma SameForStart(w: World, d: Disruption)
    ensures SameFor(w, w, d)
  {
  }

  lemma SameForTrans(w: World, w1: World, w2: World, d: Disruption)
    requires SameFor(w, w1, d) && SameFor(w1, w2, d)
    ensures SameFor(w, w2, d)
  {
  }

  // The pods of the chosen targets, the targets and the clock are as before.
  ghost predicate SameFor(w: World, w': World, d: Disruption) {
    && w'.targets == w.targets && w'.now == w.now && w'.nextPod == w.nextPod && w'.obj == w.obj
    && (forall id :: id in w.pods && w.pods[id].target in d.status.targetInjections ==>
          id in w'.pods && w'.pods[id] == w.pods[id])
  }

  // `have` shows which kinds have a pod on t.
  ghost predicate Mirrors(w: World, have: set<(Target, Kind)>, t: Target) {
    forall k :: (t, k) in have <==> (t, k) in Pairs(w)
  }

  lemma SameForMirrors(w: World, w': World, d: Disruption)
    requires SameFor(w, w', d) && Tame(w, w')
    ensures MirrorsAll(w', Pairs(w), d.status.targetInjections.Keys)
    ensures AllPassedBy(w, d, d.status.targetInjections.Keys) <==> AllPassedBy(w', d, d.status.targetInjections.Keys)
    ensures AllIdle(w, d, d.status.targetInjections.Keys) ==> AllIdle(w', d, d.status.targetInjections.Keys)
    ensures SameWork(w, w', d)
  {
    forall t, k | t in d.status.targetInjections ensures (t, k) in Pairs(w) <==> (t, k) in Pairs(w') {
      if (t, k) in Pairs(w) {
        var id :| id in w.pods && (w.pods[id].target, w.pods[id].kind) == (t, k);
        assert id in w'.pods && w'.pods[id] == w.pods[id];
      }
    }
    forall t | t in d.status.targetInjections ensures PassedBy(w, d, t) <==> PassedBy(w', d, t) {
      forall j: nat ensures FirstUnmet(w, d, t, j) <==> FirstUnmet(w', d, t, j) {
      }
    }
  }

  // The walk over the kinds of one target.
  method InjectTarget(api: ApiServer, d: Disruption, t: Target, have: set<(Target, Kind)>)
    returns (ok: bool, d': Disruption)
    requires api.Valid() && Injecting(api.w, d) && t in d.status.targetInjections
    modifies api
    ensures api.Valid() && old(api.log) <= api.log && Progress(old(api.w), api.w)
    ensures Injecting(api.w, d') && SameButRuns(d, d')
    ensures AtMostOneRun(old(api.w), api.w, d') && (!Current(old(api.w), d) ==> RunsGrow(old(api.w), api.w, 0))
    ensures OnlyFor(old(api.w), api.w, t)
    ensures old(api.script) == [] ==> api.script == [] && Undisturbed(old(api.w), api.w)
    ensures old(api.script) == [] && Mirrors(old(api.w), have, t) && ok ==> Idle(api.w, d', t)
    ensures old(api.script) == [] && Mirrors(old(api.w), have, t) ==> Walked(old(api.w), d, t, ok, api.w, d')
  {
    hide Inv, Recorded, Tame, Progress, OnlyFor, Undisturbed, Pairs, RunsGrow;
    NothingCreated(api.w, t);
    var injections := d.status.targetInjections[t];
    for i := 0 to |d.spec.kinds|
      invariant api.w == old(api.w) && api.script == old(api.script) && api.log == old(api.log)
      invariant forall j :: 0 <= j < i ==> (t, d.spec.kinds[j]) in have || Skips(d, t, d.spec.kinds[j])
    {
      var k := d.spec.kinds[i];
      if (t, k) in have {
        continue;
      }
      if k !in injections {
        assert Mirrors(api.w, have, t) ==> FirstUnmet(api.w, d, t, i);
        return false, d;
      }
      if k == NODE_FAILURE && d.spec.staticTargeting && injections[k] != NotInjected {
        continue;
      }
      if Mirrors(api.w, have, t) {
        OnlyFirst(api.w, d, t, i);
      }
      var res;
      res, d' := CreateChaosPods(api, d, t);
      return res != CreationFailed, d';
    }
    if Mirrors(api.w, have, t) {
      assert forall j :: 0 <= j < |d.spec.kinds| ==> !Unmet(api.w, d, t, d.spec.kinds[j]);
    }
    return true, d;
  }

  // What an undisturbed walk comes to: it passes by a target with nothing to do; else it fails, or a run is stored and
  // the copy is left behind.
  ghost predicate Walked(w: World, d: Disruption, t: Target, ok: bool, w': World, d': Disruption) {
    && (PassedBy(w, d, t) ==> ok && d' == d && w' == w)
    && (!PassedBy(w, d, t) ==> !ok || !Current(w', d'))
    && (!PassedBy(w, d, t) && Complete(d, t) && Current(w, d) ==> RunStored(w, w') && !Current(w', d'))
    && (!Current(w, d) ==> w'.obj == w.obj)
    && (Idle(w, d, t) ==> w'.nextPod == w.nextPod)
    && (!PassedBy(w, d, t) && ok ==> Current(w, d) && w'.nextPod == w.nextPod + |Lacks(w, d, t)|)
    && (Holds(w, d) ==> Holds(w', d'))
  }

  lemma OnlyFirst(w: World, d: Disruption, t: Target, i: nat)
    requires i < |d.spec.kinds| && Unmet(w, d, t, d.spec.kinds[i]) && forall j :: 0 <= j < i ==>
      !Unmet(w, d, t, d.spec.kinds[j])
    requires t in d.status.targetInjections && d.spec.kinds[i] in d.status.targetInjections[t]
    ensures exists k :: k in d.spec.kinds && (t, k) !in Pairs(w)
    ensures PassedBy(w, d, t) <==> Blocked(w, d, t)
    ensures Idle(w, d, t) ==> Blocked(w, d, t)
  {
    assert d.spec.kinds[i] in d.spec.kinds && FirstUnmet(w, d, t, i);
    forall j: nat | FirstUnmet(w, d, t, j) ensures j == i {
    }
  }

  lemma MirrorsStays(w: World, w': World, have: set<(Target, Kind)>, t: Target, other: Target)
    requires Mirrors(w, have, other) && OnlyFor(w, w', t) && Undisturbed(w, w') && other != t
    ensures Mirrors(w', have, other)
  {
  }

  ghost predicate MirrorsAll(w: World, have: set<(Target, Kind)>, ts: set<Target>) {
    forall t :: t in ts ==> Mirrors(w, have, t)
  }

  ghost predicate AllIdle(w: World, d: Disruption, ts: set<Target>) {
    forall t :: t in ts ==> Idle(w, d, t)
  }

  ghost predicate AllPassedBy(w: World, d: Disruption, ts: set<Target>) {
    forall t :: t in ts ==> PassedBy(w, d, t)
  }

  ghost predicate AllComplete(d: Disruption, ts: set<Target>) {
    forall t :: t in ts ==> Complete(d, t)
  }

  // Injecting t undisturbed leaves the other targets as they were.
  lemma OthersUnaffected(w: World, d: Disruption, w': World, d': Disruption, have: set<(Target, Kind)>, t: Target,
                         done: set<Target>, left: set<Target>)
    requires Undisturbed(w, w') && OnlyFor(w, w', t) && SameButRuns(d, d')
    requires AllIdle(w, d, done) && MirrorsAll(w, have, left)
    ensures AllIdle(w', d', done) && MirrorsAll(w', have, left - {t})
    ensures AllIdle(w, d, left) ==> AllIdle(w', d', left)
  {
    forall o | o in done + left && Idle(w, d, o) ensures Idle(w', d', o) {
      IdleStays(w, d, w', d', o);
    }
    forall o | o in left - {t} ensures Mirrors(w', have, o) {
      MirrorsStays(w, w', have, t, o);
    }
  }

  // What an undisturbed walk over several targets comes to, from (w, d) to (w', d').
  ghost predicate WalkedAll(w: World, d: Disruption, ts: set<Target>, ok: bool, w': World, d': Disruption) {
    && (AllPassedBy(w, d, ts) ==> ok && d' == d && w' == w)
    && (!AllPassedBy(w, d, ts) ==> !ok || !Current(w', d'))
    && (!AllPassedBy(w, d, ts) && AllComplete(d, ts) && Current(w, d) ==> RunStored(w, w') && !Current(w', d'))
    && (!AllPassedBy(w, d, ts) && ok ==> OneServed(w, d, ts, w'))
    && (Holds(w, d) ==> Holds(w', d'))
  }

  // Just one of the targets has got its missing pods.
  ghost predicate OneServed(w: World, d: Disruption, ts: set<Target>, w': World) {
    exists t :: t in ts && !PassedBy(w, d, t) && w'.nextPod == w.nextPod + |Lacks(w, d, t)|
  }

  lemma WalkedNone(w: World, d: Disruption)
    ensures WalkedAll(w, d, {}, true, w, d)
  {
  }

  lemma WalkedMore(w: World, d: Disruption, done: set<Target>, w1: World, d1: Disruption, t: Target, ok: bool,
                   w2: World, d2: Disruption)
    requires WalkedAll(w, d, done, true, w1, d1) && Walked(w1, d1, t, ok, w2, d2)
    requires SameButRuns(d, d1) && SameButRuns(d1, d2) && (!Current(w1, d1) ==> !Current(w2, d1))
    ensures WalkedAll(w, d, done + {t}, ok, w2, d2)
  {
    hide PassedBy, Complete, Lacks;
    assert AllPassedBy(w, d, done + {t}) <==> AllPassedBy(w, d, done) && PassedBy(w, d, t);
    assert AllComplete(d, done + {t}) ==> AllComplete(d, done) && Complete(d, t);
    assert Current(w2, d2) <==> Current(w2, d1);
    if !AllPassedBy(w, d, done + {t}) && ok {
      if AllPassedBy(w, d, done) {
        assert t in done + {t} && w2.nextPod == w.nextPod + |Lacks(w, d, t)|;
      } else {
        var o :| o in done && !PassedBy(w, d, o) && w1.nextPod == w.nextPod + |Lacks(w, d, o)|;
        assert o in done + {t};
      }
    }
  }

  lemma WalkedIdle(w: World, d: Disruption, t: Target, ok: bool, w': World, d': Disruption)
    requires Walked(w, d, t, ok, w', d')
    ensures Idle(w, d, t) ==> w'.nextPod == w.nextPod
  {
  }

  // The walk stopped early.
  lemma WalkedRest(w: World, d: Disruption, some: set<Target>, all: set<Target>, w': World, d': Disruption)
    requires WalkedAll(w, d, some, false, w', d') && some <= all
    ensures WalkedAll(w, d, all, false, w', d')
  {
    assert AllPassedBy(w, d, all) ==> AllPassedBy(w, d, some);
    assert AllComplete(d, all) ==> AllComplete(d, some);
  }

  // The walk over the chosen targets.
  method InjectAll(api: ApiServer, d: Disruption, have: set<(Target, Kind)>) returns (ok: bool, d': Disruption)
    requires api.Valid() && Injecting(api.w, d)
    modifies api
    ensures api.Valid() && old(api.log) <= api.log && Progress(old(api.w), api.w)
    ensures Injecting(api.w, d') && SameButRuns(d, d')
    ensures AtMostOneRun(old(api.w), api.w, d')
    ensures old(api.script) == [] ==> api.script == []
    ensures old(api.script) == [] && MirrorsAll(old(api.w), have, d.status.targetInjections.Keys) ==>
      && (ok ==> AllIdle(api.w, d', d.status.targetInjections.Keys))
      && WalkedAll(old(api.w), d, d.status.targetInjections.Keys, ok, api.w, d')
      && (AllIdle(old(api.w), d, d.status.targetInjections.Keys) ==> api.w.nextPod == old(api.w.nextPod))
  {
    hide Inv, Recorded, Idle, Mirrors, Undisturbed, OnlyFor, RunsGrow, WalkedAll, Walked, Progress, Injecting;
    ok, d' := true, d;
    var done, left := {}, d.status.targetInjections.Keys;
    ghost var quiet := api.script == [] && MirrorsAll(api.w, have, left);
    ghost var settled := quiet && AllIdle(api.w, d, left);
    WalkedNone(api.w, d);
    NoProgress(api.w, d);
    while left != {} && ok
      invariant done + left == d.status.targetInjections.Keys
      invariant api.Valid() && old(api.log) <= api.log && Progress(old(api.w), api.w)
      invariant Injecting(api.w, d') && SameButRuns(d, d')
      invariant AtMostOneRun(old(api.w), api.w, d')
      invariant old(api.script) == [] ==> api.script == []
      invariant quiet && ok ==> AllIdle(api.w, d', done) && MirrorsAll(api.w, have, left)
      invariant quiet ==>
        WalkedAll(old(api.w), d, if ok then done else d.status.targetInjections.Keys, ok, api.w, d')
      invariant settled && ok ==> AllIdle(api.w, d', left)
      invariant settled ==> api.w.nextPod == old(api.w.nextPod)
      decreases left, ok
    {
      var t :| t in left;
      ghost var before, was := api.w, d';
      ok, d' := InjectTarget(api, d', t, have);
      RunsOnce(old(api.w), before, api.w, was, d');
      if quiet {
        OthersUnaffected(before, was, api.w, d', have, t, done, left);
        WalkedMore(old(api.w), d, done, before, was, t, ok, api.w, d');
        WalkedIdle(before, was, t, ok, api.w, d');
        if !ok {
          WalkedRest(old(api.w), d, done + {t}, d.status.targetInjections.Keys, api.w, d');
        }
      }
      if ok {
        done, left := done + {t}, left - {t};
      }
    }
  }

  lemma NoProgress(w: World, d: Disruption)
    ensures Progress(w, w) && AtMostOneRun(w, w, d)
  {
  }

  // A copy that was left behind stores no further run.
  lemma RunsOnce(w: World, w1: World, w2: World, d1: Disruption, d2: Disruption)
    requires Progress(w, w1) && Progress(w1, w2) && Injecting(w1, d1) && SameButRuns(d1, d2)
    requires AtMostOneRun(w, w1, d1) && AtMostOneRun(w1, w2, d2) && (!Current(w1, d1) ==> RunsGrow(w1, w2, 0))
    ensures Progress(w, w2) && AtMostOneRun(w, w2, d2) && (!Current(w1, d1) ==> !Current(w2, d1))
  {
    ProgressKeepsCopy(w1, w2, d1);
    if RunsGrow(w, w1, 0) {
      if RunsGrow(w1, w2, 0) {
        RunsAdd(w, w1, w2, 0, 0);
      } else {
        RunsAdd(w, w1, w2, 0, 1);
      }
    } else {
      RunsAdd(w, w1, w2, 1, 0);
    }
  }

  // At most one run of a call is stored: it leaves the copy behind, so that any later status write of the same copy
  // meets a conflict. Undisturbed, a successful call leaves every target idle, and a call that finds nothing to do
  // changes nothing but the pods of targets that are no longer chosen.
  method StartInjection(api: ApiServer, d: Disruption) returns (ok: bool, d': Disruption)
    requires api.Valid() && Injecting(api.w, d)
    modifies api
    ensures api.Valid() && old(api.log) <= api.log && Progress(old(api.w), api.w)
    ensures Injecting(api.w, d') && SameButRuns(d, d')
    ensures AtMostOneRun(old(api.w), api.w, d')
    ensures old(api.script) == [] ==> api.script == [] && (ok ==> AllIdle(api.w, d', d.status.targetInjections.Keys))
    ensures old(api.script) == [] ==> Started(old(api.w), d, ok, api.w, d')
    ensures old(api.script) == [] && AllIdle(old(api.w), d, d.status.targetInjections.Keys) ==>
      api.w.nextPod == old(api.w.nextPod)
  {
    hide Inv, Recorded, Progress, WalkedAll, RunsGrow, AllIdle;
    var listed := api.ListPods();
    TameStays(old(api.w), api.w, d);
    if listed.None? {
      return false, d;
    }
    var have := set id | id in listed.value :: (listed.value[id].target, listed.value[id].kind);
    ghost var before := api.w;
    assert have == Pairs(before);
    DropUntargeted(api, d, listed.value);
    ghost var after := api.w;
    TameStays(before, after, d);
    RunsOnce(old(api.w), before, after, d, d);
    if old(api.script) == [] {
      SameForMirrors(before, after, d);
    }
    ok, d' := InjectAll(api, d, have);
    RunsOnce2(old(api.w), after, api.w, d, d');
    if old(api.script) == [] {
      StartedFrom(before, after, d, ok, api.w, d');
    }
  }

  // The outcome of an undisturbed start: with nothing to do for any target the object stays as it is; else the start
  // fails or leaves the copy behind, and if every chosen target has a complete status a run is stored.
  ghost predicate Started(w: World, d: Disruption, ok: bool, w': World, d': Disruption) {
    var ts := d.status.targetInjections.Keys;
    && (AllPassedBy(w, d, ts) ==> ok && d' == d && w'.obj == w.obj && w'.nextPod == w.nextPod)
    && (!AllPassedBy(w, d, ts) ==> !ok || !Current(w', d'))
    && (!AllPassedBy(w, d, ts) && AllComplete(d, ts) && Current(w, d) ==> RunStored(w, w'))
    && (!AllPassedBy(w, d, ts) && ok ==> OneServed(w, d, ts, w'))
    && (Holds(w, d) ==> Holds(w', d'))
  }

  lemma StartedFrom(w: World, w1: World, d: Disruption, ok: bool, w': World, d': Disruption)
    requires SameFor(w, w1, d) && WalkedAll(w1, d, d.status.targetInjections.Keys, ok, w', d')
    requires AllPassedBy(w, d, d.status.targetInjections.Keys) <==> AllPassedBy(w1, d, d.status.targetInjections.Keys)
    requires SameWork(w, w1, d)
    ensures Started(w, d, ok, w', d')
  {
    hide AllPassedBy, AllComplete, Lacks, PassedBy;
  }

  // The chosen targets have and lack the same in both.
  ghost predicate SameWork(w: World, w': World, d: Disruption) {
    forall t :: t in d.status.targetInjections ==>
      (PassedBy(w, d, t) <==> PassedBy(w', d, t)) && Lacks(w, d, t) == Lacks(w', d, t)
  }

  lemma TameStays(w: World, w': World, d: Disruption)
    requires Tame(w, w') && Injecting(w, d)
    ensures Injecting(w', d) && Progress(w, w') && AtMostOneRun(w, w', d) && RunsGrow(w, w', 0)
  {
    TameKeepsRights(w, w', d);
  }

  // A start after steps that count no run.
  lemma RunsOnce2(w: World, w1: World, w2: World, d1: Disruption, d2: Disruption)
    requires Progress(w, w1) && Progress(w1, w2) && RunsGrow(w, w1, 0) && AtMostOneRun(w1, w2, d2)
    ensures Progress(w, w2) && AtMostOneRun(w, w2, d2)
  {
    if RunsGrow(w1, w2, 0) {
      RunsAdd(w, w1, w2, 0, 0);
    } else {
      RunsAdd(w, w1, w2, 0, 1);
    }
  }

  // A successful start gives its missing pods to one target that lacks some, or creates nothing if there is none. A
  // second start right after it creates nothing, and succeeds if every chosen target has a complete status.
  method StartTwice(api: ApiServer, d: Disruption) returns (ok: bool, again: bool)
    requires api.Valid() && Injecting(api.w, d) && api.script == []
    modifies api
    ensures api.Valid()
    ensures ok ==>
      if AllPassedBy(old(api.w), d, d.status.targetInjections.Keys) then api.w.nextPod == old(api.w.nextPod)
      else OneServed(old(api.w), d, d.status.targetInjections.Keys, api.w)
    ensures ok && AllComplete(d, d.status.targetInjections.Keys) ==> again
  {
    hide Inv, Recorded, Injecting, Complete, Idle, PassedBy, Lacks;
    var d', d'';
    ok, d' := StartInjection(api, d);
    again := false;
    if ok {
      if AllComplete(d, d.status.targetInjections.Keys) {
        IdleIsPassedBy(api.w, d, d');
      }
      again, d'' := StartInjection(api, d');
    }
  }

  lemma IdleIsPassedBy(w: World, d: Disruption, d': Disruption)
    requires AllComplete(d, d.status.targetInjections.Keys) && SameButRuns(d, d')
    requires AllIdle(w, d', d.status.targetInjections.Keys)
    ensures AllPassedBy(w, d', d'.status.targetInjections.Keys)
  {
    forall t | t in d'.status.targetInjections ensures PassedBy(w, d', t) {
      assert Complete(d, t);
      PassedByIsIdle(w, d', t);
    }
  }

  /* ---------- termination of chaos pods ---------- */

  datatype Verdict = Keep | Release | Stuck

  predicate HasNoSideEffects(k: Kind) {
    k == NODE_FAILURE || k == "pod-replacement" || k == "container-failure"
  }

  // HandleChaosPodTermination: may the finalizer of a pod under deletion be taken away?
  function Judge(pod: Pod, health: Health): Verdict {
    if !pod.deleting || !pod.finalizer || health == Unknown then Keep
    else if health == Unhealthy || HasNoSideEffects(pod.kind) then Release
    else match pod.phase
      case Succeeded => Release
      case Pending => Release
      case Failed(neverInjected) => if neverInjected then Release else Stuck
      case Running(_) => Keep
  }

  function WithInjection(status: Status, pod: Pod, s: InjectionStatus): Status {
    var old_ := if pod.target in status.targetInjections then status.targetInjections[pod.target] else map[];
    status.(targetInjections := status.targetInjections[pod.target := old_[pod.kind := s]])
  }

  function FlagStuck(d: Disruption, pod: Pod): Disruption {
    d.(status := WithInjection(d.status, pod, StuckOnRemoval).(isStuckOnRemoval := true))
  }

  method HandleTermination(api: ApiServer, d: Disruption, id: nat, pod: Pod) returns (d': Disruption)
    requires api.Valid() && Copy(api.w, d)
    modifies api
    ensures api.Valid() && old(api.log) <= api.log && Tame(old(api.w), api.w) && Copy(api.w, d')
    ensures SameButStatus(d, d')
    ensures old(api.script) == [] ==>
      && api.script == []
      && api.w == (if Judge(pod, Healthy) == Release then Cluster.DropPodFinalizer(old(api.w), id) else old(api.w))
      && d' == (if Judge(pod, Healthy) == Stuck then FlagStuck(d, pod) else d)
  {
    hide Inv, Recorded;
    d' := d;
    if pod.deleting {
      var health := api.TargetHealth();
      TameKeepsRights(old(api.w), api.w, d);
      match Judge(pod, health)
      case Keep =>
      case Release =>
        ghost var before := api.w;
        var ok := api.DropPodFinalizer(id);
        TameTrans(old(api.w), before, api.w);
        TameKeepsRights(before, api.w, d);
      case Stuck =>
        d' := FlagStuck(d, pod);
    }
  }

  // In-memory status changes never touch these.
  predicate SameButStatus(d: Disruption, d': Disruption) {
    && d'.uid == d.uid && d'.rv == d.rv && d'.finalizer == d.finalizer && d'.deletedAt == d.deletedAt
    && d'.spec == d.spec
    && d'.status.cleanedAt == d.status.cleanedAt && d'.status.runCount == d.status.runCount
  }

  method HandleTerminations(api: ApiServer, d: Disruption) returns (ok: bool, d': Disruption)
    requires api.Valid() && Copy(api.w, d)
    modifies api
    ensures api.Valid() && old(api.log) <= api.log && Copy(api.w, d') && RunsGrow(old(api.w), api.w, 0)
    ensures ok ==>
      d'.deletedAt == d.deletedAt && d'.finalizer == d.finalizer && d'.status.cleanedAt == d.status.cleanedAt
    ensures old(api.script) == [] && old(api.w.pods) == map[] ==>
      ok && d' == d && api.w == old(api.w) && api.script == []
    ensures old(api.script) == [] ==>
      forall id :: id in api.w.pods <==> id in old(api.w.pods) && Judge(old(api.w.pods)[id], Healthy) != Release
  {
    hide Inv, Recorded, Gentle, RunsGrow;
    d' := d;
    var listed := api.ListPods();
    TameKeepsRights(old(api.w), api.w, d);
    if listed.None? {
      return false, d;
    }
    if listed.value == map[] {
      return true, d;
    }
    var todo := listed.value.Keys;
    while todo != {}
      invariant api.Valid() && old(api.log) <= api.log && Copy(api.w, d') && SameButStatus(d, d')
      invariant todo <= listed.value.Keys && RunsGrow(old(api.w), api.w, 0)
      invariant old(api.script) == [] ==> api.script == [] && Releasing(listed.value, api.w.pods, todo)
      decreases todo
    {
      var id :| id in todo;
      ghost var before := api.w;
      d' := HandleTermination(api, d', id, listed.value[id]);
      RunsAdd(old(api.w), before, api.w, 0, 0);
      todo := todo - {id};
    }
    ghost var before := api.w;
    ok, d' := api.UpdateStatus(d');
    RunsAdd(old(api.w), before, api.w, 0, 0);
  }

  // Of the pods listed, those seen to already are left only if they are not to be released.
  ghost predicate Releasing(listed: map<nat, Pod>, pods: map<nat, Pod>, todo: set<nat>) {
    && (forall id :: id in pods <==> id in listed && (id in todo || Judge(listed[id], Healthy) != Release))
    && (forall id :: id in pods ==> pods[id] == listed[id])
  }

  // HandleOrphanedChaosPods: releases and then deletes the pods whose target is gone; one that cannot be released is
  // left alone. The target is looked up as a pod whatever the level, so a node is not found.
  method HandleOrphans(api: ApiServer)
    requires api.Valid()
    modifies api
    ensures api.Valid() && old(api.log) <= api.log && RunsGrow(old(api.w), api.w, 0)
    ensures old(api.script) == [] ==>
      forall id :: id in api.w.pods <==> id in old(api.w.pods) && old(api.w.pods)[id].target in old(api.w.targets)
  {
    hide Inv, Recorded, Gentle, RunsGrow;
    var listed := api.ListPods();
    if listed.None? {
      return;
    }
    var todo := listed.value.Keys;
    while todo != {}
      invariant api.Valid() && old(api.log) <= api.log && todo <= listed.value.Keys && RunsGrow(old(api.w), api.w, 0)
      invariant old(api.script) == [] ==> api.script == [] && api.w.targets == old(api.w.targets)
      invariant old(api.script) == [] ==> Orphaned(listed.value, api.w.pods, todo, api.w.targets)
      decreases todo
    {
      var id :| id in todo;
      ghost var w0 := api.w;
      var there := api.GetTarget(listed.value[id].target);
      RunsAdd(old(api.w), w0, api.w, 0, 0);
      if there == Some(false) {
        ghost var w1 := api.w;
        var ok := api.DropPodFinalizer(id);
        RunsAdd(old(api.w), w1, api.w, 0, 0);
        if ok {
          ghost var w2 := api.w;
          api.DeletePod(id);
          RunsAdd(old(api.w), w2, api.w, 0, 0);
        }
      }
      todo := todo - {id};
    }
  }

  // Of the pods listed, those seen to already are left only if their target exists.
  ghost predicate Orphaned(listed: map<nat, Pod>, pods: map<nat, Pod>, todo: set<nat>, targets: set<Target>) {
    && (forall id :: id in pods <==> id in listed && (id in todo || listed[id].target in targets))
    && (forall id :: id in pods ==> pods[id] == listed[id])
  }

  // The targets and kinds of the ready pods among these.
  function ReadyAmong(pods: map<nat, Pod>, ids: set<nat>): set<(Target, Kind)> {
    set id | id in ids && id in pods && pods[id].phase == Running(true) :: (pods[id].target, pods[id].kind)
  }

  // What is ready is marked as injected, and everything else is as before.
  ghost predicate Marked(before: TargetInjections, after: TargetInjections, ready: set<(Target, Kind)>) {
    && (forall t :: t in after <==> t in before || exists k :: (t, k) in ready)
    && (forall t, k :: t in after ==> (k in after[t] <==> (t, k) in ready || (t in before && k in before[t])))
    && (forall t, k :: t in after && k in after[t] ==>
          after[t][k] == if (t, k) in ready then Injected else before[t][k])
  }

  lemma MarkedNone(before: TargetInjections, pods: map<nat, Pod>)
    ensures Marked(before, before, {}) && ReadyAmong(pods, {}) == {}
  {
  }

  lemma MarkedOne(before: TargetInjections, status: Status, ready: set<(Target, Kind)>, pod: Pod)
    requires Marked(before, status.targetInjections, ready)
    ensures Marked(before, WithInjection(status, pod, Injected).targetInjections, ready + {(pod.target, pod.kind)})
  {
    var after, more := WithInjection(status, pod, Injected).targetInjections, ready + {(pod.target, pod.kind)};
    assert (pod.target, pod.kind) in more;
    forall t ensures t in after <==> t in before || exists k :: (t, k) in more {
      if k :| (t, k) in ready {
        assert (t, k) in more;
      }
    }
  }

  lemma MarkedMore(before: TargetInjections, status: Status, pods: map<nat, Pod>, ids: set<nat>, id: nat)
    requires Marked(before, status.targetInjections, ReadyAmong(pods, ids)) && id in pods
    ensures var next := if pods[id].phase == Running(true) then WithInjection(status, pods[id], Injected) else status;
      Marked(before, next.targetInjections, ReadyAmong(pods, ids + {id}))
  {
    hide Marked, WithInjection;
    var pod := pods[id];
    if pod.phase == Running(true) {
      assert ReadyAmong(pods, ids + {id}) == ReadyAmong(pods, ids) + {(pod.target, pod.kind)};
      MarkedOne(before, status, ReadyAmong(pods, ids), pod);
    } else {
      assert ReadyAmong(pods, ids + {id}) == ReadyAmong(pods, ids);
    }
  }

  method MarkReady(d: Disruption, pods: map<nat, Pod>) returns (d': Disruption)
    ensures SameButStatus(d, d')
    ensures Marked(d.status.targetInjections, d'.status.targetInjections, ReadyAmong(pods, pods.Keys))
  {
    hide Marked, ReadyAmong;
    d' := d;
    var ids := AnyOrder(pods.Keys);
    MarkedNone(d.status.targetInjections, pods);
    assert Elements(ids[..0]) == {};
    for i := 0 to |ids|
      invariant SameButStatus(d, d')
      invariant Marked(d.status.targetInjections, d'.status.targetInjections, ReadyAmong(pods, Elements(ids[..i])))
    {
      assert ids[i] in Elements(ids);
      assert Elements(ids[..i + 1]) == Elements(ids[..i]) + {ids[i]};
      MarkedMore(d.status.targetInjections, d'.status, pods, Elements(ids[..i]), ids[i]);
      if pods[ids[i]].phase == Running(true) {
        d' := d'.(status := WithInjection(d'.status, pods[ids[i]], Injected));
      }
    }
    assert ids[..|ids|] == ids;
  }

  // What is ready of a disruption that is neither expired nor under deletion.
  function Ready(w: World, d: Disruption): set<(Target, Kind)> {
    if d.spec.endsAt - w.now <= 0 || d.deletedAt.Some? then {} else ReadyAmong(w.pods, w.pods.Keys)
  }

  // The object is stored with the targets of this copy, and what is ready is marked as injected.
  ghost predicate HoldsMarked(w: World, d: Disruption) {
    && w.obj.Some?
    && Marked(d.status.targetInjections, w.obj.value.status.targetInjections, Ready(w, d))
  }

  // updateInjectionStatus, without the injection status itself: unless the disruption is over, ready pods are marked as
  // injected; the status is written.
  method UpdateInjectionStatus(api: ApiServer, d: Disruption) returns (ok: bool, d': Disruption)
    requires api.Valid() && Copy(api.w, d)
    modifies api
    ensures api.Valid() && old(api.log) <= api.log && Copy(api.w, d')
    ensures ok ==> Current(old(api.w), d) && d'.finalizer == d.finalizer && d'.status.cleanedAt == d.status.cleanedAt
    ensures RunsGrow(old(api.w), api.w, 0)
    ensures old(api.script) == [] ==>
      api.script == [] && ok == Current(old(api.w), d) && (if ok then api.w.obj == Some(d') else api.w == old(api.w))
    ensures old(api.script) == [] && ok ==>
      && Marked(d.status.targetInjections, d'.status.targetInjections, Ready(api.w, d))
      && Ready(api.w, d) == Ready(old(api.w), d)
  {
    hide Inv, Recorded, Gentle, RunsGrow, Marked, ReadyAmong;
    d' := d;
    var listed := api.ListPods();
    TameKeepsRights(old(api.w), api.w, d);
    ghost var before := api.w;
    if listed.None? {
      return false, d;
    }
    MarkedNone(d.status.targetInjections, listed.value);
    if d.spec.endsAt - api.w.now > 0 && d.deletedAt.None? {
      d' := MarkReady(d, listed.value);
    }
    ok, d' := api.UpdateStatus(d');
    RunsAdd(old(api.w), before, api.w, 0, 0);
  }

  /* ---------- Reconcile ---------- */

  // cleanDisruption: true when no chaos pod is left.
  method CleanDisruption(api: ApiServer) returns (res: Option<bool>)
    requires api.Valid()
    modifies api
    ensures api.Valid() && old(api.log) <= api.log && Tame(old(api.w), api.w)
    ensures res == Some(true) ==> api.w.pods == map[]
    ensures old(api.script) == [] ==> forall id :: id in api.w.pods ==> api.w.pods[id].deleting
    ensures old(api.script) == [] && old(api.w.pods) == map[] ==>
      res == Some(true) && api.w == old(api.w) && api.script == []
  {
    hide Inv, Recorded;
    var listed := api.ListPods();
    if listed.None? {
      return None;
    }
    var todo := listed.value.Keys;
    while todo != {}
      invariant api.Valid() && old(api.log) <= api.log && Tame(old(api.w), api.w) && todo <= listed.value.Keys
      invariant listed.value == map[] ==> api.w.pods == map[]
      invariant old(api.script) == [] ==> api.script == [] && Deleting(listed.value, api.w.pods, todo)
      invariant old(api.script) == [] && old(api.w.pods) == map[] ==> api.w == old(api.w)
      decreases todo
    {
      var id :| id in todo;
      if !listed.value[id].deleting {
        ghost var before := api.w;
        api.DeletePod(id);
        TameTrans(old(api.w), before, api.w);
      }
      todo := todo - {id};
    }
    return Some(listed.value == map[]);
  }

  // Of the pods listed, those seen to already are under deletion.
  ghost predicate Deleting(listed: map<nat, Pod>, pods: map<nat, Pod>, todo: set<nat>) {
    && pods.Keys <= listed.Keys
    && (forall id :: id in pods ==> if id in todo then pods[id] == listed[id] else pods[id].deleting)
  }

  // What one undisturbed reconcile makes of a deleted object without chaos pods: first declared clean,
  // then kept until the delay has passed, then released.
  ghost predicate Retired(d: Disruption, now: int, cfg: Config, after: Option<Disruption>) {
    match d.status.cleanedAt
    case None => after.Some? && after.value.status == d.status.(cleanedAt := Some(now))
    case Some(at) => if now > at + cfg.finalizerDelay then after.None? else after == Some(d)
  }

  // A deletion that lasts too long is flagged, as long as chaos pods are left.
  method MarkStuck(api: ApiServer, cfg: Config, d: Disruption) returns (ok: bool, d': Disruption)
    requires api.Valid() && Copy(api.w, d) && d.deletedAt.Some?
    modifies api
    ensures api.Valid() && old(api.log) <= api.log && Copy(api.w, d') && RunsGrow(old(api.w), api.w, 0)
    ensures ok ==>
      d'.deletedAt == d.deletedAt && d'.finalizer == d.finalizer && d'.status.cleanedAt == d.status.cleanedAt
    ensures old(api.script) == [] && old(api.w.pods) == map[] ==>
      ok && d' == d && api.w == old(api.w) && api.script == []
    ensures old(api.script) == [] && old(api.w.pods) != map[] && Current(old(api.w), d) ==>
      ok &&
      (d'.status.isStuckOnRemoval <==>
         d.status.isStuckOnRemoval || old(api.w.now) > d.deletedAt.value + cfg.deletionTimeout)
  {
    hide Inv, Recorded;
    ok, d' := true, d;
    if api.w.now > d.deletedAt.value + cfg.deletionTimeout && !d.status.isStuckOnRemoval {
      var listed := api.ListPods();
      TameKeepsRights(old(api.w), api.w, d);
      if listed.None? {
        return false, d;
      }
      if listed.value != map[] {
        ghost var before := api.w;
        ok, d' := api.UpdateStatus(d.(status := d.status.(isStuckOnRemoval := true)));
        RunsAdd(old(api.w), before, api.w, 0, 0);
      }
    }
  }

  // The branch of a deleted object that still holds the finalizer.
  method Finalize(api: ApiServer, cfg: Config, d0: Disruption)
    requires api.Valid() && Copy(api.w, d0) && d0.deletedAt.Some? && d0.finalizer
    modifies api
    ensures api.Valid() && old(api.log) <= api.log && RunsGrow(old(api.w), api.w, 0)
    ensures old(api.script) == [] && old(api.w.obj) == Some(d0) && old(api.w.pods) == map[] ==>
      Retired(d0, old(api.w.now), cfg, api.w.obj)
  {
    hide Inv, Recorded, RunsGrow;
    var ok, d := MarkStuck(api, cfg, d0);
    if !ok {
      return;
    }
    ghost var before := api.w;
    if d.status.cleanedAt.Some? {
      if api.w.now > d.status.cleanedAt.value + cfg.finalizerDelay {
        ok, d := api.Update(d.(finalizer := false));
        RunsAdd(old(api.w), before, api.w, 0, 0);
      }
      return;
    }
    var cleaned := CleanDisruption(api);
    TameKeepsRights(before, api.w, d);
    RunsAdd(old(api.w), before, api.w, 0, 0);
    ghost var after := api.w;
    if cleaned == Some(true) {
      ok, d := api.UpdateStatus(d.(status := d.status.(cleanedAt := Some(api.w.now))));
      RunsAdd(old(api.w), after, api.w, 0, 0);
    } else if cleaned == Some(false) {
      ok, d := api.Update(d);
      RunsAdd(old(api.w), after, api.w, 0, 0);
    }
  }

  // Target selection and its status write; false when the pass ends there.
  method Retarget(api: ApiServer, d0: Disruption, obs: Observed) returns (ok: bool, d: Disruption)
    requires api.Valid() && Injecting(api.w, d0)
    modifies api
    ensures api.Valid() && old(api.log) <= api.log && RunsGrow(old(api.w), api.w, 0)
    ensures ok ==> Injecting(api.w, d) && Selectable(d0, obs) && SelectedFrom(d0, obs, d)
    ensures old(api.script) == [] && Current(old(api.w), d0) ==>
      && (ok <==> Selectable(d0, obs))
      && (ok ==> Retargeted(old(api.w), d0, api.w, d) && api.script == [])
    ensures ok && !Settled(d0.spec, d0.status.targetInjections, obs) ==> Holds(api.w, d)
    ensures Fixed(d0.spec, d0.status.targetInjections) ==> ok && d == d0
  {
    hide Inv, Recorded, Chosen, Wanted, LiveSet, DesiredCount, Picks, Listable, Fixed, LiveOnly;
    var outcome, status := SelectTargets(d0.spec, d0.status, obs);
    d, ok := d0.(status := status), outcome != ListingFailed;
    if outcome == Selected {
      ok, d := api.UpdateStatus(d);
    }
    assert outcome != ListingFailed && outcome != Selected ==> Settled(d0.spec, d0.status.targetInjections, obs);
  }

  // The selection does not end the pass: the targets are fixed, or those that may be added could be examined.
  predicate Selectable(d0: Disruption, obs: Observed) {
    Fixed(d0.spec, d0.status.targetInjections) || Listable(d0.status.targetInjections, obs)
  }

  // The copy with the targets a selection may pick.
  ghost predicate SelectedFrom(d0: Disruption, obs: Observed, d: Disruption) {
    && d.spec == d0.spec && d.status.runCount == d0.status.runCount
    && Picks(d0.spec, d0.status.targetInjections, obs, d.status.targetInjections)
  }

  // After an undisturbed selection: the copy is current, and nothing but the object has changed.
  predicate Retargeted(w: World, d0: Disruption, w': World, d: Disruption) {
    && Current(w', d) && w.obj.Some? && w'.obj.Some? && w'.obj.value.uid == w.obj.value.uid
    && w'.obj.value.status.runCount == w.obj.value.status.runCount
    && Pairs(w') == Pairs(w) && w'.targets == w.targets && w'.now == w.now
  }

  // The disruption has not expired, and its pods may be created.
  predicate Due(cfg: Config, d: Disruption, now: int) {
    && d.spec.endsAt - now > 0 && d.spec.createPodsAt - now <= 5 * SECOND
    && (cfg.expiredGcDelay.Some? ==> d.spec.endsAt - now > -cfg.expiredGcDelay.value)
  }

  // The branch of a live object, once its finalizer update went through; chosen is the copy after the selection of
  // targets, if it came to that: its targets are determined by the object and what is observed, or, where some have to
  // be drawn, are the ones the object is stored with in the end. At most one run is stored, and then the pass is not
  // finished: its injection status meets a conflict. Undisturbed and with a current copy, a pass is finished exactly
  // when it finds nothing to do for any chosen target; when each has a complete status, that is when every chosen
  // target is idle, and else a run is stored.
  method Inject(api: ApiServer, cfg: Config, d0: Disruption, obs: Observed)
    returns (finished: bool, ghost chosen: Option<Disruption>)
    requires api.Valid() && Injecting(api.w, d0)
    modifies api
    ensures api.Valid() && old(api.log) <= api.log
    ensures RunsGrow(old(api.w), api.w, 1) && (finished ==> RunsGrow(old(api.w), api.w, 0))
    ensures chosen.Some? ==> Due(cfg, d0, old(api.w.now)) && Selectable(d0, obs) && SelectedFrom(d0, obs, chosen.value)
    ensures Fixed(d0.spec, d0.status.targetInjections) && Due(cfg, d0, old(api.w.now)) ==> chosen == Some(d0)
    ensures old(api.script) == [] && Current(old(api.w), d0) ==>
      (chosen.Some? <==> Due(cfg, d0, old(api.w.now)) && Selectable(d0, obs))
    ensures old(api.script) == [] && Current(old(api.w), d0) && Settled(d0.spec, d0.status.targetInjections, obs) ==>
      (finished <==> Due(cfg, d0, old(api.w.now)) && Selectable(d0, obs) && NothingToDo(old(api.w), d0, obs))
    ensures old(api.script) == [] && Current(old(api.w), d0) ==>
      (finished <==> chosen.Some? && AllPassedBy(old(api.w), chosen.value, chosen.value.status.targetInjections.Keys))
    ensures old(api.script) == [] && Current(old(api.w), d0) && chosen.Some? ==>
      !Settled(d0.spec, d0.status.targetInjections, obs) ==>
      if finished then HoldsMarked(api.w, chosen.value) else Holds(api.w, chosen.value)
    ensures old(api.script) == [] && Current(old(api.w), d0) && chosen.Some? ==>
      AllComplete(chosen.value, chosen.value.status.targetInjections.Keys) ==>
      && (finished <==> AllIdle(old(api.w), chosen.value, chosen.value.status.targetInjections.Keys))
      && (!finished ==> RunStored(old(api.w), api.w))
  {
    hide Inv, Recorded, RunsGrow, Injecting, AllPassedBy, AllComplete, AllIdle, Pairs, Selectable, SelectedFrom,
      Settled, NothingToDo, Fixed, Marked, Ready;
    finished, chosen := false, None;
    var d, ok := d0, true;
    SomeRuns(api.w);
    var remaining := d.spec.endsAt - api.w.now;
    if cfg.expiredGcDelay.Some? && remaining <= -cfg.expiredGcDelay.value {
      api.Delete();
      MoreRuns(old(api.w), api.w);
      return;
    }
    if remaining <= 0 {
      InjectingCopy(api.w, d);
      ok, d := UpdateInjectionStatus(api, d);
      MoreRuns(old(api.w), api.w);
      return;
    }
    if d.spec.createPodsAt - api.w.now > 5 * SECOND {
      return;
    }
    ok, d := Retarget(api, d, obs);
    MoreRuns(old(api.w), api.w);
    if !ok {
      return;
    }
    ghost var w1, d1 := api.w, d;
    chosen := Some(d);
    ok, d := StartInjection(api, d);
    RunsTotal(old(api.w), w1, api.w, d);
    if old(api.script) == [] && Current(old(api.w), d0) {
      SameChoice(old(api.w), w1, d1, d0);
      if Settled(d0.spec, d0.status.targetInjections, obs) {
        SettledChoice(old(api.w), d0, obs, d1);
      }
    }
    if !ok {
      return;
    }
    ghost var w2 := api.w;
    InjectingCopy(api.w, d);
    ok, d := UpdateInjectionStatus(api, d);
    RunsAfter(old(api.w), w2, api.w, ok);
    if ok {
      ghost var w3 := api.w;
      finished, d := api.Update(d);
      RunsAfter(old(api.w), w3, api.w, true);
    }
  }

  lemma SomeRuns(w: World)
    ensures RunsGrow(w, w, 0) && RunsGrow(w, w, 1)
  {
  }

  lemma MoreRuns(w: World, w': World)
    requires RunsGrow(w, w', 0)
    ensures RunsGrow(w, w', 1)
  {
  }

  lemma InjectingCopy(w: World, d: Disruption)
    requires Injecting(w, d)
    ensures Copy(w, d) && d.finalizer && d.status.cleanedAt.None?
  {
  }

  lemma RunsTotal(w: World, w1: World, w2: World, d: Disruption)
    requires RunsGrow(w, w1, 0) && AtMostOneRun(w1, w2, d)
    ensures RunsGrow(w, w2, 1) && (Current(w2, d) ==> RunsGrow(w, w2, 0))
  {
    if RunsGrow(w1, w2, 0) {
      RunsAdd(w, w1, w2, 0, 0);
    } else {
      RunsAdd(w, w1, w2, 0, 1);
    }
  }

  lemma RunsAfter(w: World, w1: World, w2: World, ok: bool)
    requires RunsGrow(w, w1, 1) && RunsGrow(w1, w2, 0) && (ok ==> RunsGrow(w, w1, 0))
    ensures RunsGrow(w, w2, 1) && (ok ==> RunsGrow(w, w2, 0))
  {
    RunsAdd(w, w1, w2, 1, 0);
    if ok {
      RunsAdd(w, w1, w2, 0, 0);
    }
  }

  // There is nothing to do for any target, when none has to be drawn.
  ghost predicate NothingToDo(w: World, d0: Disruption, obs: Observed) {
    var chosen := Settlement(d0.spec, d0.status.targetInjections, obs);
    AllPassedBy(w, d0.(status := d0.status.(targetInjections := chosen)), chosen.Keys)
  }

  lemma SettledChoice(w: World, d0: Disruption, obs: Observed, d: Disruption)
    requires SelectedFrom(d0, obs, d) && Settled(d0.spec, d0.status.targetInjections, obs)
    ensures AllPassedBy(w, d, d.status.targetInjections.Keys) <==> NothingToDo(w, d0, obs)
  {
    hide Picks, Settled, Pairs;
    SettledPicks(d0.spec, d0.status.targetInjections, obs, d.status.targetInjections);
    var e := d0.(status := d0.status.(targetInjections := d.status.targetInjections));
    forall t | t in d.status.targetInjections ensures PassedBy(w, d, t) <==> PassedBy(w, e, t) {
      forall j: nat ensures FirstUnmet(w, d, t, j) <==> FirstUnmet(w, e, t, j) {
      }
    }
  }

  // For a target that was added there is nothing to do exactly when it lacks no pod or can get none.
  lemma AddedIsWork(w: World, d0: Disruption, obs: Observed, d: Disruption, t: Target)
    requires SelectedFrom(d0, obs, d) && !Fixed(d0.spec, d0.status.targetInjections)
    requires t in d.status.targetInjections && t !in LiveSet(d0.status.targetInjections, obs)
    ensures Complete(d, t) && (PassedBy(w, d, t) <==> Lacks(w, d, t) == {} || Blocked(w, d, t))
  {
    hide Picks, Fixed, LiveSet, Pairs, PassedBy;
    AddedIsFresh(d0.spec, d0.status.targetInjections, obs, d.status.targetInjections, t);
    PassedByIsIdle(w, d, t);
    if Lacks(w, d, t) != {} {
      var k :| k in Lacks(w, d, t);
      assert k in d.spec.kinds && (t, k) !in Pairs(w) && !Skips(d, t, k);
      assert NeedsPods(w, d, t);
    }
    if NeedsPods(w, d, t) {
      var k :| k in d.spec.kinds && (t, k) !in Pairs(w) && !Skips(d, t, k);
      assert k in Lacks(w, d, t);
    }
  }

  // The selection of targets changes nothing that decides what there is to do for them.
  lemma SameChoice(w: World, w': World, d: Disruption, d0: Disruption)
    requires Retargeted(w, d0, w', d)
    ensures forall w'' :: RunStored(w', w'') ==> RunStored(w, w'')
    ensures AllPassedBy(w, d, d.status.targetInjections.Keys) <==> AllPassedBy(w', d, d.status.targetInjections.Keys)
    ensures AllComplete(d, d.status.targetInjections.Keys) ==>
      (AllIdle(w, d, d.status.targetInjections.Keys) <==> AllPassedBy(w, d, d.status.targetInjections.Keys))
  {
    hide Pairs;
    forall t | t in d.status.targetInjections ensures PassedBy(w, d, t) <==> PassedBy(w', d, t) {
      forall j: nat ensures FirstUnmet(w, d, t, j) <==> FirstUnmet(w', d, t, j) {
      }
    }
    if AllComplete(d, d.status.targetInjections.Keys) {
      forall t | t in d.status.targetInjections ensures PassedBy(w, d, t) <==> Idle(w, d, t) {
        PassedByIsIdle(w, d, t);
      }
    }
  }

  // One reconcile from a cached object, which may be any version the server ever stored, or from a
  // cache that does not know the object.
  method Reconcile(api: ApiServer, cfg: Config, cached: Option<Disruption>, obs: Observed)
    requires api.Valid()
    requires cached.Some? ==> cached.value in api.w.versions
    modifies api
    ensures api.Valid() && old(api.log) <= api.log && RunsGrow(old(api.w), api.w, 1)
    ensures old(api.script) == [] && cached.Some? && old(api.w.obj) == cached && old(api.w.pods) == map[] ==>
      cached.value.deletedAt.Some? ==> Retired(cached.value, old(api.w.now), cfg, api.w.obj)
  {
    hide RunsGrow, Recorded, AllPassedBy, AllComplete, AllIdle, Selectable, SelectedFrom, Settled, NothingToDo, Fixed,
      Due, RunStored, Judge;
    if cached.None? {
      HandleOrphans(api);
      MoreRuns(old(api.w), api.w);
      return;
    }
    var d := cached.value;
    VersionIsCopy(api.w, d);
    var ok;
    ok, d := HandleTerminations(api, d);
    MoreRuns(old(api.w), api.w);
    if !ok {
      return;
    }
    ghost var w1 := api.w;
    if d.deletedAt.Some? {
      if d.finalizer {
        Finalize(api, cfg, d);
        RunsAfter(old(api.w), w1, api.w, false);
      }
      return;
    }
    if cfg.deleteOnly {
      api.Delete();
      RunsAfter(old(api.w), w1, api.w, false);
      return;
    }
    ok, d := api.Update(d.(finalizer := true));
    RunsAfter(old(api.w), w1, api.w, true);
    if ok {
      ghost var w2 := api.w;
      ghost var chosen;
      var finished;
      finished, chosen := Inject(api, cfg, d, obs);
      RunsAdd(old(api.w), w2, api.w, 0, 1);
    }
  }

  // A first pass over one target without a chaos pod: the pod is created and the run stored, but the injection status
  // is not, and the pass is not finished.
  method FirstPass(t: Target, k: Kind) returns (api: ApiServer, finished: bool)
    ensures fresh(api) && api.Valid() && !finished
    ensures api.w.obj.Some? && api.w.obj.value.status.runCount == 1
  {
    hide Inv, Recorded, RunsGrow, Gentle, PassedBy, AllPassedBy, AllComplete, AllIdle;
    api := new ApiServer(0);
    var spec := Spec(NodeLevel, [k], Absolute(1), true, false, None, 0, 60 * SECOND);
    ApplyKeepsInv(api.w, UserCreate(spec));
    api.Become(Apply(api.w, UserCreate(spec)));
    var d := api.w.obj.value;
    var ok;
    ok, d := api.Update(d.(finalizer := true));
    assert ok && d.spec == spec && api.w.obj == Some(d) && d.deletedAt.None? && api.w.pods == map[];
    ok, d := api.UpdateStatus(d.(status := d.status.(targetInjections := map[t := map[k := NotInjected]])));
    assert ok && d.spec == spec && api.w.obj == Some(d) && api.w.pods == map[] && d.finalizer;
    NothingYet(api.w, d, t, k);
    assert t in d.status.targetInjections;
    ghost var chosen;
    finished, chosen := Inject(api, Config(false, 0, 0, None), d, Observed(None, 0, map[], []));
  }

  lemma NothingYet(w: World, d: Disruption, t: Target, k: Kind)
    requires d.spec.kinds == [k] && d.status.targetInjections == map[t := map[k := NotInjected]] && w.pods == map[]
    requires d.spec.level == NodeLevel && d.spec.maxRuns.None? && d.spec.endsAt - w.now >= SECOND
    ensures AllComplete(d, d.status.targetInjections.Keys) && !AllIdle(w, d, d.status.targetInjections.Keys)
  {
    assert k in d.spec.kinds && (t, k) !in Pairs(w) && !Skips(d, t, k);
    assert NeedsPods(w, d, t) && t in d.status.targetInjections.Keys && !Idle(w, d, t);
  }

  datatype Event =
    | Elsewhere(move: Move)
    | Reconciling(version: Option<nat>, cfg: Config, obs: Observed, script: seq<Turn>)

  // Any history: moves of the outside world and reconciles of arbitrary cached versions, each with an
  // arbitrary interleaving. In every state passed through, chaos pods exist only under the finalizer and
  // at most one per target and kind; after a state that shows CleanedAt, none exists as long as that
  // object, or none, is there.
  method Run(events: seq<Event>, now: int) returns (api: ApiServer)
    ensures fresh(api) && api.Valid()
    ensures forall i :: 0 <= i < |api.log| && api.log[i].pods != map[] ==>
      api.log[i].obj.Some? && api.log[i].obj.value.finalizer && api.log[i].obj.value.status.cleanedAt.None?
    ensures forall i :: 0 <= i < |api.log| ==> OnePodEach(api.log[i].pods)
    ensures forall i, j ::
      0 <= i <= j < |api.log| && DeclaredClean(api.log[i]) && SameObject(api.log[i], api.log[j]) ==>
        api.log[j].pods == map[]
  {
    hide Inv, Recorded;
    api := new ApiServer(now);
    for i := 0 to |events|
      invariant fresh(api) && api.Valid()
    {
      match events[i]
      case Elsewhere(move) =>
        ApplyKeepsInv(api.w, move);
        api.Become(Apply(api.w, move));
      case Reconciling(version, cfg, obs, script) =>
        api.script := script;
        if version.None? {
          Reconcile(api, cfg, None, obs);
        } else if version.value < |api.w.versions| {
          Reconcile(api, cfg, Some(api.w.versions[version.value]), obs);
        }
    }
    forall i | 0 <= i < |api.log|
      ensures PodsGuarded(api.log[i])
    {
      PodsOnlyUnderFinalizer(api.log, i);
    }
    forall i, j | 0 <= i <= j < |api.log| && DeclaredClean(api.log[i]) && SameObject(api.log[i], api.log[j])
      ensures api.log[j].pods == map[]
    {
      CleanForGood(api.log, i, j);
    }
  }
}
