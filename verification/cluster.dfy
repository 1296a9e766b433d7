// The Kubernetes API server as the disruption controller sees it: one Disruption resource of a given
// name, its chaos pods, and the effect of each API call and of each move of the outside world.
module Cluster {
  import opened DisruptionTypes

  datatype Disruption = Disruption(
    uid: nat,
    rv: nat,                  // resource version
    finalizer: bool,
    deletedAt: Option<int>,   // deletion timestamp
    spec: Spec,
    status: Status)

  datatype Phase = Pending | Running(ready: bool) | Succeeded | Failed(neverInjected: bool)

  datatype Pod = Pod(target: Target, kind: Kind, deleting: bool, finalizer: bool, phase: Phase)

  datatype World = World(
    obj: Option<Disruption>,
    pods: map<nat, Pod>,
    targets: set<Target>,      // names of the pods that exist besides the chaos pods
    now: int,
    lastRv: nat,               // last resource version issued
    nextPod: nat,
    versions: seq<Disruption>, // every version ever stored: what a lagging cache may serve
    cleaned: set<nat>)         // uids whose CleanedAt was ever stored

  /* ---------- effect of the API calls ---------- */

  predicate Current(w: World, d: Disruption) {
    w.obj.Some? && w.obj.value.rv == d.rv
  }

  // Stores a changed object under a fresh version; one that is being deleted and holds no finalizer
  // any more is garbage collected; an identical one is not written.
  function Store(w: World, d: Disruption): World
    requires w.obj.Some?
  {
    if d == w.obj.value then w
    else if d.deletedAt.Some? && !d.finalizer then w.(obj := None, lastRv := w.lastRv + 1)
    else
      var stored := d.(rv := w.lastRv + 1);
      w.(obj := Some(stored), lastRv := w.lastRv + 1, versions := w.versions + [stored],
         cleaned := if stored.status.cleanedAt.Some? then w.cleaned + {stored.uid} else w.cleaned)
  }

  // Update writes the spec and the finalizer, Status().Update the status; both only onto the version
  // they were computed from.
  function UpdateMeta(w: World, d: Disruption): World {
    if Current(w, d) then Store(w, w.obj.value.(finalizer := d.finalizer, spec := d.spec)) else w
  }

  function UpdateStatus(w: World, d: Disruption): World {
    if Current(w, d) then Store(w, w.obj.value.(status := d.status)) else w
  }

  function Delete(w: World): World {
    if w.obj.None? then w
    else if !w.obj.value.finalizer then w.(obj := None, lastRv := w.lastRv + 1)
    else if w.obj.value.deletedAt.Some? then w
    else Store(w, w.obj.value.(deletedAt := Some(w.now)))
  }

  function CreatePod(w: World, t: Target, k: Kind): World {
    w.(pods := w.pods[w.nextPod := Pod(t, k, false, true, Pending)], nextPod := w.nextPod + 1)
  }

  function DeletePod(w: World, id: nat): World {
    if id !in w.pods then w
    else if w.pods[id].finalizer then w.(pods := w.pods[id := w.pods[id].(deleting := true)])
    else w.(pods := w.pods - {id})
  }

  function DropPodFinalizer(w: World, id: nat): World {
    if id !in w.pods then w
    else if w.pods[id].deleting then w.(pods := w.pods - {id})
    else w.(pods := w.pods[id := w.pods[id].(finalizer := false)])
  }

  /* ---------- the outside world ---------- */

  datatype Move =
    | UserCreate(spec: Spec)
    | UserEdit(spec: Spec)
    | UserDelete
    | PodPhase(id: nat, phase: Phase)
    | PodDelete(id: nat)
    | PodVanish(id: nat)
    | TargetAppears(t: Target)
    | TargetGoes(t: Target)
    | Tick(d: nat)

  function Apply(w: World, m: Move): World {
    match m
    case UserCreate(spec) =>
      if w.obj.Some? then w
      else
        var d := Disruption(w.lastRv + 1, w.lastRv + 1, false, None, spec, Status(map[], None, false, 0, 0, 0, 0));
        w.(obj := Some(d), lastRv := w.lastRv + 1, versions := w.versions + [d])
    case UserEdit(spec) => if w.obj.None? then w else Store(w, w.obj.value.(spec := spec))
    case UserDelete => Delete(w)
    case PodPhase(id, phase) => if id in w.pods then w.(pods := w.pods[id := w.pods[id].(phase := phase)]) else w
    case PodDelete(id) => DeletePod(w, id)
    case PodVanish(id) => w.(pods := w.pods - {id})
    case TargetAppears(t) => w.(targets := w.targets + {t})
    case TargetGoes(t) => w.(targets := w.targets - {t})
    case Tick(d) => w.(now := w.now + d)
  }

  /* ---------- safety ---------- */

  ghost predicate OnePodEach(pods: map<nat, Pod>) {
    forall i, j :: i in pods && j in pods && i != j ==> pods[i].target != pods[j].target || pods[i].kind != pods[j].kind
  }

  // The (target, kind) pairs that have a chaos pod.
  function Pairs(w: World): set<(Target, Kind)> {
    set id | id in w.pods :: (w.pods[id].target, w.pods[id].kind)
  }

  // Chaos pods may exist only under an object that holds the finalizer and has not been declared clean.
  predicate MayHavePods(w: World) {
    w.obj.Some? && w.obj.value.finalizer && w.obj.value.status.cleanedAt.None?
  }

  ghost predicate ObjectOk(w: World, d: Disruption) {
    && 0 < d.uid <= w.lastRv && 0 < d.rv <= w.lastRv
    && d in w.versions
    && (forall v :: v in w.versions && v.rv == d.rv ==> v == d)
    && (d.deletedAt.Some? ==> d.finalizer)
    && (d.status.cleanedAt.Some? ==> d.deletedAt.Some?)
    && (d.status.cleanedAt.Some? <==> d.uid in w.cleaned)
  }

  ghost predicate Inv(w: World) {
    && (w.obj.Some? ==> ObjectOk(w, w.obj.value))
    && (w.pods != map[] ==> MayHavePods(w))
    && OnePodEach(w.pods)
    && (forall id :: id in w.pods ==> id < w.nextPod)
    && (forall v :: v in w.versions ==> v.rv <= w.lastRv)
    && (forall u :: u in w.cleaned ==> u <= w.lastRv)
  }

  // A controller-side copy of the object: while it is current, it shows what the server holds.
  ghost predicate Copy(w: World, d: Disruption) {
    && d.rv <= w.lastRv
    && (Current(w, d) ==>
      && d.uid == w.obj.value.uid
      && d.finalizer == w.obj.value.finalizer
      && d.deletedAt == w.obj.value.deletedAt
      && d.spec == w.obj.value.spec
      && d.status.cleanedAt == w.obj.value.status.cleanedAt
      && d.status.runCount == w.obj.value.status.runCount)
  }

  // The run count stored with the object has grown by at most n; an object created since has a later uid.
  predicate RunsGrow(w: World, w': World, n: nat) {
    && w.lastRv <= w'.lastRv
    && (w'.obj.Some? ==>
      || w'.obj.value.uid > w.lastRv
      || (w.obj.Some? && w'.obj.value.uid == w.obj.value.uid &&
          0 <= w'.obj.value.status.runCount - w.obj.value.status.runCount <= n))
  }

  lemma RunsAdd(a: World, b: World, c: World, m: nat, n: nat)
    requires RunsGrow(a, b, m) && RunsGrow(b, c, n)
    ensures RunsGrow(a, c, m + n)
  {
  }

  // What every step leaves alone that neither creates a chaos pod, nor declares the object clean, nor
  // takes its finalizer away, nor counts a run. Every move of the outside world is such a step.
  ghost predicate Tame(w: World, w': World) {
    Gentle(w, w') && RunsGrow(w, w', 0)
  }

  // The same, but for runs.
  ghost predicate Gentle(w: World, w': World) {
    && w.lastRv <= w'.lastRv
    && (w'.obj.Some? && w'.obj.value.rv <= w.lastRv ==> w'.obj == w.obj)
    && w'.pods.Keys <= w.pods.Keys
    && (forall id :: id in w'.pods ==> w'.pods[id].target == w.pods[id].target && w'.pods[id].kind == w.pods[id].kind)
    && w'.nextPod == w.nextPod
    && w.cleaned <= w'.cleaned
    && (MayHavePods(w) ==> MayHavePods(w') && w'.obj.value.uid == w.obj.value.uid)
    && w.now <= w'.now
  }

  lemma TameTrans(a: World, b: World, c: World)
    requires Gentle(a, b) && Gentle(b, c)
    ensures Gentle(a, c)
    ensures Tame(a, b) && Tame(b, c) ==> Tame(a, c)
  {
  }

  lemma StoreKeepsInv(w: World, d: Disruption)
    requires Inv(w) && w.obj.Some?
    requires d.uid == w.obj.value.uid && d.rv == w.obj.value.rv
    requires d.status.cleanedAt.Some? ==> d.deletedAt.Some? && w.pods == map[]
    requires w.obj.value.status.cleanedAt.Some? ==> d.status.cleanedAt.Some?
    requires w.pods != map[] ==> d.finalizer
    ensures Inv(Store(w, d))
    ensures w.cleaned <= Store(w, d).cleaned
    ensures d.status.runCount >= w.obj.value.status.runCount ==>
      RunsGrow(w, Store(w, d), d.status.runCount - w.obj.value.status.runCount)
  {
    var w' := Store(w, d);
    if w'.obj.Some? && d != w.obj.value {
      assert w'.obj.value in w'.versions;
    }
  }

  lemma DeleteKeepsInv(w: World)
    requires Inv(w)
    ensures Inv(Delete(w)) && Tame(w, Delete(w))
  {
    if w.obj.Some? && w.obj.value.finalizer && w.obj.value.deletedAt.None? {
      StoreKeepsInv(w, w.obj.value.(deletedAt := Some(w.now)));
    }
  }

  lemma PodsShrinkKeepsInv(w: World, w': World)
    requires Inv(w) && w' == w.(pods := w'.pods)
    requires w'.pods.Keys <= w.pods.Keys
    requires forall id :: id in w'.pods ==>
      w'.pods[id].target == w.pods[id].target && w'.pods[id].kind == w.pods[id].kind
    ensures Inv(w') && Tame(w, w')
  {
  }

  lemma UserCreateKeepsInv(w: World, spec: Spec)
    requires Inv(w)
    ensures Inv(Apply(w, UserCreate(spec))) && Tame(w, Apply(w, UserCreate(spec)))
  {
    if w.obj.None? {
      assert Apply(w, UserCreate(spec)).obj.value in Apply(w, UserCreate(spec)).versions;
    }
  }

  lemma PodMoveKeepsInv(w: World, m: Move)
    requires Inv(w) && (m.PodPhase? || m.PodDelete? || m.PodVanish?)
    ensures Inv(Apply(w, m)) && Tame(w, Apply(w, m))
  {
    PodsShrinkKeepsInv(w, Apply(w, m));
  }

  lemma ApplyKeepsInv(w: World, m: Move)
    requires Inv(w)
    ensures Inv(Apply(w, m)) && Tame(w, Apply(w, m))
  {
    if m.UserCreate? {
      UserCreateKeepsInv(w, m.spec);
    } else if m.UserEdit? {
      if w.obj.Some? {
        StoreKeepsInv(w, w.obj.value.(spec := m.spec));
      }
    } else if m.UserDelete? {
      DeleteKeepsInv(w);
    } else if m.PodPhase? || m.PodDelete? || m.PodVanish? {
      PodMoveKeepsInv(w, m);
    }
  }

  // A copy taken from any version the server ever held stays a copy, however stale.
  lemma VersionIsCopy(w: World, d: Disruption)
    requires Inv(w) && d in w.versions
    ensures Copy(w, d)
  {
  }

  lemma CreatePodKeepsInv(w: World, t: Target, k: Kind)
    requires Inv(w) && MayHavePods(w) && (t, k) !in Pairs(w)
    ensures Inv(CreatePod(w, t, k))
  {
  }

  // An update of spec and finalizer that may be sent: it keeps the finalizer, or the object is clean.
  ghost predicate MayWriteMeta(w: World, d: Disruption) {
    && d.rv <= w.lastRv
    && (Current(w, d) ==>
      && d.deletedAt == w.obj.value.deletedAt
      && d.status.cleanedAt == w.obj.value.status.cleanedAt
      && (d.finalizer || d.status.cleanedAt.Some?))
  }

  ghost predicate KeepsCleanedAt(w: World, d: Disruption) {
    Current(w, d) ==> d.status.cleanedAt == w.obj.value.status.cleanedAt
  }

  // Writing this status adds n to the run count.
  predicate KeepsRuns(w: World, d: Disruption, n: nat) {
    Current(w, d) ==> d.status.runCount == w.obj.value.status.runCount + n
  }

  // A status that may be sent: it agrees on CleanedAt, or declares clean a deleted object without pods.
  ghost predicate MayWriteStatus(w: World, d: Disruption) {
    && d.rv <= w.lastRv
    && (KeepsCleanedAt(w, d) || (d.status.cleanedAt.Some? && w.obj.value.deletedAt.Some? && w.pods == map[]))
  }

  lemma UpdateMetaKeepsInv(w: World, d: Disruption)
    requires Inv(w) && MayWriteMeta(w, d)
    ensures Inv(UpdateMeta(w, d)) && w.cleaned <= UpdateMeta(w, d).cleaned
    ensures d.finalizer ==> Tame(w, UpdateMeta(w, d))
    ensures RunsGrow(w, UpdateMeta(w, d), 0)
  {
    if Current(w, d) {
      StoreKeepsInv(w, w.obj.value.(finalizer := d.finalizer, spec := d.spec));
    }
  }

  lemma UpdateStatusKeepsInv(w: World, d: Disruption)
    requires Inv(w) && MayWriteStatus(w, d)
    ensures Inv(UpdateStatus(w, d)) && w.cleaned <= UpdateStatus(w, d).cleaned
    ensures KeepsCleanedAt(w, d) ==> Gentle(w, UpdateStatus(w, d))
    ensures KeepsRuns(w, d, 0) ==> RunsGrow(w, UpdateStatus(w, d), 0)
    ensures KeepsRuns(w, d, 1) ==> RunsGrow(w, UpdateStatus(w, d), 1)
    ensures Current(w, d) ==> UpdateStatus(w, d).obj.Some?
  {
    if Current(w, d) {
      StoreKeepsInv(w, w.obj.value.(status := d.status));
    }
  }

  // What every call of the controller leaves alone, the creation of pods included: versions only grow,
  // so a stale copy can never become current again.
  ghost predicate Progress(w: World, w': World) {
    && w.lastRv <= w'.lastRv && w.now <= w'.now && w.cleaned <= w'.cleaned
    && (w'.obj.Some? && w'.obj.value.rv <= w.lastRv ==> w'.obj == w.obj)
  }

  lemma ProgressKeepsCopy(w: World, w': World, d: Disruption)
    requires Progress(w, w') && Copy(w, d)
    ensures Copy(w', d)
    ensures !Current(w, d) ==> !Current(w', d)
  {
  }

  lemma TameKeepsRights(w: World, w': World, d: Disruption)
    requires Gentle(w, w')
    ensures Copy(w, d) ==> Copy(w', d)
    ensures d.rv <= w.lastRv && KeepsRuns(w, d, 0) ==> KeepsRuns(w', d, 0)
    ensures d.rv <= w.lastRv && KeepsRuns(w, d, 1) ==> KeepsRuns(w', d, 1)
    ensures d.rv <= w.lastRv && !Current(w, d) ==> !Current(w', d)
    ensures MayWriteMeta(w, d) ==> MayWriteMeta(w', d)
    ensures MayWriteStatus(w, d) ==> MayWriteStatus(w', d)
  {
  }

  /* ---------- a whole run ---------- */

  // A run, state by state: each one is safe, and what was declared clean stays on record.
  ghost predicate Recorded(log: seq<World>) {
    log != [] ==>
      var last := log[|log| - 1];
      && Inv(last)
      && Recorded(log[..|log| - 1])
      && (|log| > 1 ==> log[|log| - 2].cleaned <= last.cleaned)
  }

  lemma {:induction false} RecordedPair(log: seq<World>, i: nat, j: nat)
    requires Recorded(log) && i <= j < |log|
    ensures Inv(log[i]) && Inv(log[j]) && log[i].cleaned <= log[j].cleaned
    decreases |log|
  {
    var rest := log[..|log| - 1];
    if j < |log| - 1 {
      RecordedPair(rest, i, j);
    } else if i < j {
      RecordedPair(rest, i, j - 1);
    }
  }

  ghost predicate PodsGuarded(w: World) {
    (w.pods != map[] ==> MayHavePods(w)) && OnePodEach(w.pods)
  }

  // In no state of a run does a chaos pod outlive the finalizer, and no pair has two pods.
  lemma PodsOnlyUnderFinalizer(log: seq<World>, i: nat)
    requires Recorded(log) && i < |log|
    ensures PodsGuarded(log[i])
  {
    RecordedPair(log, i, i);
  }

  predicate DeclaredClean(w: World) {
    w.obj.Some? && w.obj.value.status.cleanedAt.Some?
  }

  // The object of w, or no object, is there in w'.
  predicate SameObject(w: World, w': World)
    requires w.obj.Some?
  {
    w'.obj.Some? ==> w'.obj.value.uid == w.obj.value.uid
  }

  // Once an object has been seen with CleanedAt set, no later state of the run holds a chaos pod as
  // long as that object, or none at all, is there.
  lemma CleanForGood(log: seq<World>, i: nat, j: nat)
    requires Recorded(log) && i <= j < |log|
    requires DeclaredClean(log[i]) && SameObject(log[i], log[j])
    ensures log[j].pods == map[]
  {
    RecordedPair(log, i, j);
  }
}
