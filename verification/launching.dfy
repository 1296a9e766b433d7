// How cron and rollout owners start child disruptions (controllers/disruption_cron_controller.go and
// controllers/disruption_rollout_controller.go, Reconcile). The API server, the clock, the target and the users
// are a world that moves between any two requests of a reconcile, and the controller may crash at any point.
module Launching {
  import opened DisruptionTypes
  import opened MissingTarget
  import opened Schedule

  const MAX_HISTORY := 5

  datatype Child = Child(name: string, scheduled: nat)

  datatype Kind = Cron(next: nat -> nat, created: nat) | Rollout

  datatype Config = Config(kind: Kind, name: string, threshold: nat, finalizerDelay: nat)

  // Times are in seconds. `change` is the last change of the target's containers, which only rollouts have;
  // only crons have a history.
  datatype OwnerStatus = OwnerStatus(last: Option<nat>, history: seq<nat>, missing: Option<nat>, change: Option<nat>)

  datatype Owner = Owner(
    status: OwnerStatus, paused: bool, tolerance: nat, deleting: Option<nat>, finalizer: bool, version: nat)

  // Where a reconcile stands, with its copy of the owner.
  datatype Local =
    | Idle
    | Fetched(copy: Owner)
    | Adopted(copy: Owner)
    | Checked(copy: Owner, there: bool)
    | Listed(copy: Owner, there: bool, kids: seq<nat>)
    | Synced(copy: Owner, there: bool, kids: seq<nat>)
    | Decided(copy: Owner, run: nat)
    | Posted(copy: Owner, run: nat)

  // `versions` lists every version of the owner ever stored, `used` lists the instants children were created for,
  // `stored` those whose history entry was stored, and `checks` the looks at the target and `changes` the changes of
  // its containers.
  datatype World = World(
    owner: Option<Owner>, versions: seq<Owner>, children: seq<Child>, now: nat, target: bool, local: Local,
    used: seq<nat>, stored: seq<nat>, checks: seq<Check>, changes: seq<nat>)

  // What becomes of a write: done, done with its reply lost, or refused.
  datatype Outcome = Done | Lost | Refused

  datatype Step =
    // the world
    | Elapse(seconds: nat)
    | TargetComesOrGoes(there: bool)
    | ContainersChange
    | ChildEnds(index: nat)
    | Edit(paused: bool, tolerance: nat)
    | UserDeletes
    | Crash
    // the controller
    | Fetch(lag: nat)
    | Adopt(o: Outcome)
    | CheckTarget(read: bool, o: Outcome)
    | ListChildren(read: bool, seen: bool)
    | Sync(o: Outcome)
    | Decide(built: bool)
    | Create(o: Outcome)
    | Record(o: Outcome)

  predicate OfController(s: Step) {
    s.Fetch? || s.Adopt? || s.CheckTarget? || s.ListChildren? || s.Sync? || s.Decide? || s.Create? || s.Record?
  }

  function ChildName(c: Config): string {
    (if c.kind.Cron? then "disruption-cron-" else "disruption-rollout-") + c.name
  }

  function Last(s: seq<nat>): nat
    requires s != []
  {
    s[|s| - 1]
  }

  function Suffix(s: seq<nat>): seq<nat> {
    if |s| > MAX_HISTORY then s[|s| - MAX_HISTORY..] else s
  }

  function Times(children: seq<Child>): (r: seq<nat>) {
    seq(|children|, j requires 0 <= j < |children| => children[j].scheduled)
  }

  // 0 is the zero time.
  function Latest(times: seq<nat>): (r: nat)
    ensures forall t :: t in times ==> t <= r
    ensures r == 0 || r in times
  {
    if times == [] then 0 else
      assert forall t :: t in times <==> t == times[0] || t in times[1..];
      Max(times[0], Latest(times[1..]))
  }

  predicate Exists(children: seq<Child>, name: string) {
    exists c :: c in children && c.name == name
  }

  /* ---------- requests ---------- */

  // A status write: fenced by the version of the copy. The reply refreshes the copy.
  predicate Stored(w: World, copy: Owner, o: Outcome) {
    w.owner.Some? && w.owner.value.version == copy.version && o != Refused
  }

  function Wrote(w: World, status: OwnerStatus): Owner
    requires w.owner.Some?
  {
    w.owner.value.(status := status, version := w.owner.value.version + 1)
  }

  function Continue(o: Outcome, l: Local): Local {
    if o == Done then l else Idle
  }

  // DELETE sets a deletion timestamp while there is a finalizer.
  function Deleted(owner: Owner, now: nat): Option<Owner> {
    if !owner.finalizer then None
    else if owner.deleting.Some? then Some(owner)
    else Some(owner.(deleting := Some(now), version := owner.version + 1))
  }

  // A reconcile of an owner under deletion ends here, with its finalizer removed once the delay has passed.
  function StepAdopt(c: Config, w: World, copy: Owner, o: Outcome): World {
    if copy.deleting.Some? then
      if copy.finalizer && w.now > copy.deleting.value + c.finalizerDelay && Stored(w, copy, o)
      then w.(owner := None, local := Idle)
      else w.(local := Idle)
    else if c.kind.Rollout? || copy.finalizer then w.(local := Adopted(copy))
    else if !Stored(w, copy, o) then w.(local := Idle)
    else
      var owner := w.owner.value.(finalizer := true, version := w.owner.value.version + 1);
      w.(owner := Some(owner), local := Continue(o, Adopted(owner)))
  }

  function Look(c: Config, w: World, copy: Owner, read: bool, o: Outcome): Check {
    Check(w.now, if read then Some(w.target) else None, Stored(w, copy, o))
  }

  function StepCheck(c: Config, w: World, copy: Owner, read: bool, o: Outcome): World {
    var look := Look(c, w, copy, read, o);
    var mark := Marked(copy.status.missing, look);
    if !read then w.(checks := w.checks + [look], local := Idle)
    else if Expired(copy.status.missing, look, c.threshold) then
      w.(checks := w.checks + [look], local := Idle,
         owner := if w.owner.Some? && o != Refused then Deleted(w.owner.value, w.now) else w.owner)
    else if w.target == copy.status.missing.None? then
      w.(checks := w.checks + [look], local := Checked(copy, w.target))
    else if !look.stored then w.(checks := w.checks + [look], local := Idle)
    else
      var owner := Wrote(w, copy.status.(missing := mark));
      w.(checks := w.checks + [look], owner := Some(owner), local := Continue(o, Checked(owner, w.target)))
  }

  // The most recent child tells the last schedule time.
  function StepSync(w: World, copy: Owner, there: bool, kids: seq<nat>, o: Outcome): World {
    if Latest(kids) == 0 then w.(local := Synced(copy, there, kids))
    else if !Stored(w, copy, o) then w.(local := Idle)
    else
      var owner := Wrote(w, copy.status.(last := Some(Latest(kids))));
      w.(owner := Some(owner), local := Continue(o, Synced(owner, there, kids)))
  }

  // The run that is due according to the copy, if any.
  function Due(c: Config, copy: Owner, now: nat): Option<nat>
    requires c.kind.Cron? ==> Progressive(c.kind.next)
  {
    match c.kind
    case Cron(next, created) =>
      var run := if copy.paused then None
                 else LastMissed(next, if copy.status.last.Some? then copy.status.last.value else created, now);
      if run.Some? && copy.tolerance > 0 && run.value + copy.tolerance < now then None else run
    case Rollout =>
      if copy.status.change.None? then None
      else if copy.status.last.Some? && copy.status.change.value <= copy.status.last.value then None
      else if copy.tolerance > 0 && copy.status.change.value + copy.tolerance < now then None
      else Some(now)
  }

  function StepDecide(c: Config, w: World, copy: Owner, there: bool, kids: seq<nat>, built: bool): World
    requires c.kind.Cron? ==> Progressive(c.kind.next)
  {
    var run := Due(c, copy, w.now);
    if run.Some? && there && kids == [] && built then w.(local := Decided(copy, run.value)) else w.(local := Idle)
  }

  // The fixed name of the child is a lock.
  function StepCreate(c: Config, w: World, copy: Owner, run: nat, o: Outcome): World {
    if Exists(w.children, ChildName(c)) || o == Refused then w.(local := Idle)
    else
      w.(children := w.children + [Child(ChildName(c), run)], used := w.used + [run],
         local := Continue(o, Posted(copy, run)))
  }

  function StepRecord(c: Config, w: World, copy: Owner, run: nat, o: Outcome): World {
    if !Stored(w, copy, o) then w.(local := Idle)
    else
      var history := if c.kind.Cron? then Suffix(copy.status.history + [run]) else copy.status.history;
      w.(owner := Some(Wrote(w, copy.status.(last := Some(run), history := history))), local := Idle,
         stored := if c.kind.Cron? then w.stored + [run] else w.stored)
  }

  function StepWorld(c: Config, w: World, s: Step): World {
    match s
    case Elapse(d) => w.(now := w.now + d)
    case TargetComesOrGoes(there) => w.(target := there)
    case ContainersChange =>
      if w.owner.None? || c.kind.Cron? then w
      else w.(owner := Some(Wrote(w, w.owner.value.status.(change := Some(w.now)))), changes := w.changes + [w.now])
    case ChildEnds(j) => if j < |w.children| then w.(children := RemoveAt(w.children, j)) else w
    case Edit(paused, tolerance) =>
      if w.owner.None? then w
      else
        var version := w.owner.value.version + 1;
        w.(owner := Some(w.owner.value.(paused := paused, tolerance := tolerance, version := version)))
    case UserDeletes => if w.owner.None? then w else w.(owner := Deleted(w.owner.value, w.now))
    case Crash => w.(local := Idle)
    case _ => w
  }

  // What a read through the cache gives: the owner as it is, or any version stored before.
  function Served(w: World, lag: nat): Option<Owner> {
    if lag == 0 then w.owner else if lag <= |w.versions| then Some(w.versions[|w.versions| - lag]) else None
  }

  // A new version of the owner is put on record.
  function Noted(w: World, v: World): World {
    if v.owner.Some? && v.owner != w.owner then v.(versions := v.versions + [v.owner.value]) else v
  }

  function Next(c: Config, w: World, s: Step): World
    requires c.kind.Cron? ==> Progressive(c.kind.next)
  {
    Noted(w, Take(c, w, s))
  }

  function Take(c: Config, w: World, s: Step): World
    requires c.kind.Cron? ==> Progressive(c.kind.next)
  {
    match s
    case Fetch(lag) =>
      if w.local.Idle? && Served(w, lag).Some? then w.(local := Fetched(Served(w, lag).value)) else w
    case Adopt(o) => if w.local.Fetched? then StepAdopt(c, w, w.local.copy, o) else w
    case CheckTarget(read, o) => if w.local.Adopted? then StepCheck(c, w, w.local.copy, read, o) else w
    case ListChildren(read, seen) =>
      if !w.local.Checked? then w
      else if !read then w.(local := Idle)
      else w.(local := Listed(w.local.copy, w.local.there, if seen then Times(w.children) else []))
    case Sync(o) => if w.local.Listed? then StepSync(w, w.local.copy, w.local.there, w.local.kids, o) else w
    case Decide(built) =>
      if w.local.Synced? then StepDecide(c, w, w.local.copy, w.local.there, w.local.kids, built) else w
    case Create(o) => if w.local.Decided? then StepCreate(c, w, w.local.copy, w.local.run, o) else w
    case Record(o) => if w.local.Posted? then StepRecord(c, w, w.local.copy, w.local.run, o) else w
    case _ => StepWorld(c, w, s)
  }

  function Play(c: Config, w: World, steps: seq<Step>): World
    requires c.kind.Cron? ==> Progressive(c.kind.next)
  {
    if steps == [] then w else Next(c, Play(c, w, steps[..|steps| - 1]), steps[|steps| - 1])
  }

  predicate Initial(w: World) {
    && w.owner.Some? && w.owner.value.status == OwnerStatus(None, [], None, None) && w.versions == [w.owner.value]
    && w.children == [] && w.now > 0 && w.local == Idle
    && w.used == [] && w.stored == [] && w.checks == [] && w.changes == []
  }

  // A child only ends once its time is recorded, or when its owner is gone and no reconcile is under way; and a
  // reconcile starts from an owner that is there, with the last run that is stored.
  predicate Patient(w: World, s: Step) {
    && (s.ChildEnds? && s.index < |w.children| ==>
          || (w.owner.Some? && w.owner.value.status.last == Some(w.children[s.index].scheduled))
          || (w.owner.None? && w.local == Idle))
    && (s.Fetch? && w.local.Idle? && Served(w, s.lag).Some? ==>
          w.owner.Some? && Served(w, s.lag).value.status.last == w.owner.value.status.last)
  }

  ghost predicate PatientRun(c: Config, w: World, steps: seq<Step>)
    requires c.kind.Cron? ==> Progressive(c.kind.next)
  {
    forall j :: 0 <= j < |steps| ==> Patient(Play(c, w, steps[..j]), steps[j])
  }

  /* ---------- what every run keeps ---------- */

  ghost predicate Increasing(s: seq<nat>) {
    forall i, j :: 0 <= i < j < |s| ==> s[i] < s[j]
  }

  // The last instant is known to whoever starts the next child: it is locked by its child or recorded.
  predicate Covered(c: Config, children: seq<Child>, used: seq<nat>, last: Option<nat>) {
    used == [] || Exists(children, ChildName(c)) || last == Some(Last(used))
  }

  ghost predicate Children(c: Config, children: seq<Child>, used: seq<nat>) {
    && |children| <= 1
    && (children != [] ==> used != [] && children[0] == Child(ChildName(c), Last(used)))
  }

  ghost predicate Instants(now: nat, used: seq<nat>, stored: seq<nat>) {
    && now > 0 && Increasing(used) && (forall t :: t in used ==> 0 < t <= now)
    && Increasing(stored) && (forall t :: t in stored ==> t in used)
  }

  ghost predicate AllLast(kids: seq<nat>, used: seq<nat>) {
    forall t :: t in kids ==> used != [] && t == Last(used)
  }

  ghost predicate Kept(w: World, s: OwnerStatus) {
    s.history == Suffix(w.stored) && s.missing == MarkAfter(w.checks)
  }

  // A version of the owner: it is not ahead of the stored one, and is that one if it has its version.
  ghost predicate Past(w: World, o: Owner) {
    && (o.status.change.Some? ==> o.status.change.value <= w.now && o.status.change.value in w.changes)
    && (w.owner.Some? ==>
          && o.version <= w.owner.value.version
          && (o.version == w.owner.value.version ==> o == w.owner.value))
  }

  // Status fields are written by this controller alone, and a copy of the stored version is the stored object. Every
  // run keeps this.
  ghost predicate Steady(w: World) {
    && (w.owner.Some? ==> Kept(w, w.owner.value.status) && Past(w, w.owner.value))
    && (!w.local.Idle? ==> Past(w, w.local.copy))
    && (forall o :: o in w.versions ==> Past(w, o))
  }

  // What the reconcile under way relies on.
  ghost predicate LocalSound(c: Config, w: World) {
    && (!w.local.Idle? ==> Covered(c, w.children, w.used, w.local.copy.status.last))
    && (!w.local.Idle? && w.owner.Some? ==> w.local.copy.status.last == w.owner.value.status.last)
    && (w.local.Listed? || w.local.Synced? ==> AllLast(w.local.kids, w.used))
    && (w.local.Decided? || w.local.Posted? ==>
          0 < w.local.run <= w.now && (w.local.copy.status.last.Some? ==> w.local.run > w.local.copy.status.last.value))
    && (w.local.Posted? ==>
          w.used != [] && w.local.run == Last(w.used) && Exists(w.children, ChildName(c)) && w.local.run !in w.stored)
  }

  // Runs in which no child ends too early and no read lags behind the last run also keep this.
  ghost predicate Lively(c: Config, w: World) {
    && Children(c, w.children, w.used) && Instants(w.now, w.used, w.stored)
    && (w.owner.Some? ==> Covered(c, w.children, w.used, w.owner.value.status.last))
    && LocalSound(c, w)
  }

  ghost predicate Sound(c: Config, w: World) {
    Steady(w) && Lively(c, w)
  }

  lemma SuffixSnoc(s: seq<nat>, x: nat)
    ensures Suffix(Suffix(s) + [x]) == Suffix(s + [x])
  {
  }

  lemma MarkSnoc(checks: seq<Check>, look: Check)
    ensures MarkAfter(checks + [look]) == Marked(MarkAfter(checks), look)
  {
    assert (checks + [look])[..|checks|] == checks;
  }

  // What one step does to the owner: it stays, goes, or gets the next version; only rollout changes are added.
  ghost predicate Moved(w: World, v: World) {
    && v.versions == w.versions && w.now <= v.now && (forall t :: t in w.changes ==> t in v.changes)
    && (v.owner.Some? && v.owner != w.owner ==> w.owner.Some? && v.owner.value.version == w.owner.value.version + 1)
    && (v.owner.Some? && v.owner.value.status.change.Some? ==>
          || (w.owner.Some? && v.owner.value.status.change == w.owner.value.status.change)
          || (v.owner.value.status.change == Some(v.now) && v.now in v.changes))
    && (!v.local.Idle? ==> (!w.local.Idle? && v.local.copy == w.local.copy) || v.owner == Some(v.local.copy))
  }

  lemma PastStays(w: World, v: World, o: Owner)
    requires Moved(w, v) && Past(w, o)
    ensures v.owner.Some? && v.owner != w.owner ==> Past(v, o) && o.version < v.owner.value.version
    ensures Past(v, o)
  {
  }

  // So the record of versions stays sound.
  lemma MovedSteady(w: World, v: World)
    requires Steady(w) && Moved(w, v) && (v.owner.Some? ==> Kept(v, v.owner.value.status))
    ensures Steady(v) && Steady(Noted(w, v))
  {
    hide Kept, Past;
    forall o | o in w.versions ensures Past(v, o) {
      PastStays(w, v, o);
    }
    if v.owner.Some? {
      OwnerPast(w, v);
    }
    if !v.local.Idle? && !w.local.Idle? {
      PastStays(w, v, w.local.copy);
    }
    var n := Noted(w, v);
    PastFrame(v, n);
    assert forall o :: o in n.versions ==> o in w.versions || n.owner == Some(o);
  }

  lemma OwnerPast(w: World, v: World)
    requires Steady(w) && Moved(w, v) && v.owner.Some?
    ensures Past(v, v.owner.value)
  {
    hide Kept;
  }

  lemma PastFrame(v: World, n: World)
    requires n == v.(versions := n.versions)
    ensures forall o :: Past(v, o) ==> Past(n, o)
    ensures forall s :: Kept(v, s) ==> Kept(n, s)
  {
  }

  lemma CheckKept(c: Config, w: World, read: bool, o: Outcome)
    requires Steady(w) && w.local.Adopted?
    ensures var v := StepCheck(c, w, w.local.copy, read, o);
      Moved(w, v) && (v.owner.Some? ==> Kept(v, v.owner.value.status))
  {
    hide MarkAfter, Suffix;
    MarkSnoc(w.checks, Look(c, w, w.local.copy, read, o));
  }

  lemma RecordKept(c: Config, w: World, o: Outcome)
    requires Steady(w) && w.local.Posted?
    ensures var v := StepRecord(c, w, w.local.copy, w.local.run, o);
      Moved(w, v) && (v.owner.Some? ==> Kept(v, v.owner.value.status))
  {
    hide MarkAfter, Suffix;
    SuffixSnoc(w.stored, w.local.run);
  }

  lemma AdoptKept(c: Config, w: World, o: Outcome)
    requires Steady(w) && w.local.Fetched?
    ensures var v := StepAdopt(c, w, w.local.copy, o);
      Moved(w, v) && (v.owner.Some? ==> Kept(v, v.owner.value.status))
  {
    hide MarkAfter, Suffix;
  }

  lemma WorldKept(c: Config, w: World, s: Step)
    requires Steady(w)
    ensures var v := StepWorld(c, w, s); Moved(w, v) && (v.owner.Some? ==> Kept(v, v.owner.value.status))
  {
    hide MarkAfter, Suffix, RemoveAt;
  }

  lemma TakeKept(c: Config, w: World, s: Step)
    requires c.kind.Cron? ==> Progressive(c.kind.next)
    requires Steady(w) && !s.Fetch?
    ensures var v := Take(c, w, s); Moved(w, v) && (v.owner.Some? ==> Kept(v, v.owner.value.status))
  {
    hide MarkAfter, Suffix, Latest, LastMissed, Exists, RemoveAt, Times, StepAdopt, StepCheck, StepRecord, StepWorld;
    match s
    case Adopt(o) => if w.local.Fetched? { AdoptKept(c, w, o); }
    case CheckTarget(read, o) => if w.local.Adopted? { CheckKept(c, w, read, o); }
    case Record(o) => if w.local.Posted? { RecordKept(c, w, o); }
    case ListChildren(read, seen) =>
    case Sync(o) =>
    case Decide(built) =>
    case Create(o) =>
    case _ => WorldKept(c, w, s);
  }

  lemma StepSteady(c: Config, w: World, s: Step)
    requires c.kind.Cron? ==> Progressive(c.kind.next)
    requires Steady(w)
    ensures Steady(Next(c, w, s))
  {
    if s.Fetch? {
      assert Served(w, s.lag).Some? ==> w.owner == Served(w, s.lag) || Served(w, s.lag).value in w.versions;
    } else {
      hide Steady, Moved, Kept, Take;
      TakeKept(c, w, s);
      MovedSteady(w, Take(c, w, s));
    }
  }

  // Ending a child whose time is recorded leaves the last instant covered.
  lemma ChildGone(c: Config, children: seq<Child>, used: seq<nat>, j: nat, last: Option<nat>)
    requires Children(c, children, used) && j < |children|
    ensures RemoveAt(children, j) == [] && children[j].scheduled == Last(used)
    ensures Children(c, RemoveAt(children, j), used)
    ensures last == Some(children[j].scheduled) ==> Covered(c, RemoveAt(children, j), used, last)
  {
  }

  lemma ListedAreLast(c: Config, children: seq<Child>, used: seq<nat>)
    requires Children(c, children, used)
    ensures AllLast(Times(children), used) && AllLast([], used)
  {
  }

  lemma LatestIsLast(c: Config, children: seq<Child>, kids: seq<nat>, used: seq<nat>)
    requires AllLast(kids, used) && Latest(kids) != 0
    ensures Covered(c, children, used, Some(Latest(kids)))
  {
  }

  lemma ChildAdded(c: Config, children: seq<Child>, used: seq<nat>, stored: seq<nat>, now: nat, run: nat,
                   last: Option<nat>)
    requires Children(c, children, used) && Instants(now, used, stored) && Covered(c, children, used, last)
    requires !Exists(children, ChildName(c)) && 0 < run <= now && (last.Some? ==> run > last.value)
    ensures Children(c, children + [Child(ChildName(c), run)], used + [run])
    ensures Instants(now, used + [run], stored) && run !in stored && Last(used + [run]) == run
    ensures Exists(children + [Child(ChildName(c), run)], ChildName(c))
    ensures forall l :: Covered(c, children + [Child(ChildName(c), run)], used + [run], l)
  {
    assert forall k :: k in children ==> k.name == ChildName(c);
    EmptyWithoutElements(children);
    assert (children + [Child(ChildName(c), run)])[|children|] == Child(ChildName(c), run);
  }

  lemma RunStored(now: nat, used: seq<nat>, stored: seq<nat>)
    requires Instants(now, used, stored) && used != [] && Last(used) !in stored
    ensures Instants(now, used, stored + [Last(used)])
  {
    forall i | 0 <= i < |stored| ensures stored[i] < Last(used) {
      assert stored[i] in used;
    }
  }

  lemma TimePasses(now: nat, later: nat, used: seq<nat>, stored: seq<nat>)
    requires Instants(now, used, stored) && now <= later
    ensures Instants(later, used, stored)
  {
  }

  lemma AdoptSound(c: Config, w: World, o: Outcome)
    requires Sound(c, w) && w.local.Fetched?
    ensures Lively(c, StepAdopt(c, w, w.local.copy, o))
  {
    hide Children, Instants, Covered, Exists, AllLast, Kept;
  }

  lemma CheckSound(c: Config, w: World, read: bool, o: Outcome)
    requires Sound(c, w) && w.local.Adopted?
    ensures Lively(c, StepCheck(c, w, w.local.copy, read, o))
  {
    hide Children, Instants, Covered, Exists, MarkAfter, AllLast, Suffix;
  }

  lemma ListSound(c: Config, w: World, seen: bool)
    requires Sound(c, w) && w.local.Checked?
    ensures Lively(c, w.(local := Listed(w.local.copy, w.local.there, if seen then Times(w.children) else [])))
  {
    hide Children, Instants, Covered, Exists, MarkAfter, Suffix, AllLast;
    ListedAreLast(c, w.children, w.used);
  }

  lemma SyncSound(c: Config, w: World, o: Outcome)
    requires Sound(c, w) && w.local.Listed?
    ensures Lively(c, StepSync(w, w.local.copy, w.local.there, w.local.kids, o))
  {
    hide Children, Instants, Covered, Exists, MarkAfter, Suffix, AllLast, Latest;
    if Latest(w.local.kids) != 0 {
      LatestIsLast(c, w.children, w.local.kids, w.used);
    }
  }

  lemma DecideSound(c: Config, w: World, built: bool)
    requires c.kind.Cron? ==> Progressive(c.kind.next)
    requires Sound(c, w) && w.local.Synced?
    ensures Lively(c, StepDecide(c, w, w.local.copy, w.local.there, w.local.kids, built))
  {
    hide Children, Covered, Exists, MarkAfter, Suffix, AllLast;
  }

  lemma CreateSound(c: Config, w: World, o: Outcome)
    requires Sound(c, w) && w.local.Decided?
    ensures Lively(c, StepCreate(c, w, w.local.copy, w.local.run, o))
  {
    hide Children, Instants, Covered, Exists, MarkAfter, Suffix, AllLast, Last;
    if !Exists(w.children, ChildName(c)) && o != Refused {
      ChildAdded(c, w.children, w.used, w.stored, w.now, w.local.run, w.local.copy.status.last);
    }
  }

  lemma RecordSound(c: Config, w: World, o: Outcome)
    requires Sound(c, w) && w.local.Posted?
    ensures Lively(c, StepRecord(c, w, w.local.copy, w.local.run, o))
  {
    hide Children, Instants, Exists, MarkAfter, Suffix, AllLast;
    RunStored(w.now, w.used, w.stored);
  }

  lemma WorldSound(c: Config, w: World, s: Step)
    requires Sound(c, w) && Patient(w, s)
    ensures Lively(c, StepWorld(c, w, s))
  {
    hide Children, Instants, Covered, Exists, MarkAfter, Suffix, AllLast, RemoveAt;
    TimePasses(w.now, w.now + (if s.Elapse? then s.seconds else 0), w.used, w.stored);
    if s.ChildEnds? && s.index < |w.children| && w.owner.Some? {
      ChildGone(c, w.children, w.used, s.index, w.owner.value.status.last);
    }
    if s.ChildEnds? && s.index < |w.children| {
      ChildGone(c, w.children, w.used, s.index, None);
    }
  }

  lemma TakeSound(c: Config, w: World, s: Step)
    requires c.kind.Cron? ==> Progressive(c.kind.next)
    requires Sound(c, w) && Patient(w, s)
    ensures Lively(c, Take(c, w, s))
  {
    hide Children, Instants, Covered, Exists, MarkAfter, Suffix, AllLast, Times, Steady;
    hide StepAdopt, StepCheck, StepSync, StepDecide, StepCreate, StepRecord, StepWorld;
    match s
    case Adopt(o) => if w.local.Fetched? { AdoptSound(c, w, o); }
    case CheckTarget(read, o) => if w.local.Adopted? { CheckSound(c, w, read, o); }
    case ListChildren(read, seen) => if w.local.Checked? { ListSound(c, w, seen); }
    case Sync(o) => if w.local.Listed? { SyncSound(c, w, o); }
    case Decide(built) => if w.local.Synced? { DecideSound(c, w, built); }
    case Create(o) => if w.local.Decided? { CreateSound(c, w, o); }
    case Record(o) => if w.local.Posted? { RecordSound(c, w, o); }
    case Fetch(lag) =>
    case _ => WorldSound(c, w, s);
  }

  lemma StepSound(c: Config, w: World, s: Step)
    requires c.kind.Cron? ==> Progressive(c.kind.next)
    requires Sound(c, w) && Patient(w, s)
    ensures Sound(c, Next(c, w, s))
  {
    hide Take, Steady, Children, Instants, Covered, AllLast, Exists;
    StepSteady(c, w, s);
    TakeSound(c, w, s);
  }

  lemma {:induction false} RunSound(c: Config, w: World, steps: seq<Step>)
    requires c.kind.Cron? ==> Progressive(c.kind.next)
    requires Initial(w) && PatientRun(c, w, steps)
    ensures Sound(c, Play(c, w, steps))
    decreases |steps|
  {
    if steps == [] {
      assert MarkAfter([]) == None && Suffix([]) == [];
    } else {
      hide Sound, Next, Patient;
      var n := |steps| - 1;
      assert forall j :: 0 <= j <= n ==> steps[..n][..j] == steps[..j];
      RunSound(c, w, steps[..n]);
      StepSound(c, Play(c, w, steps[..n]), steps[n]);
    }
  }

  // In every run, crashes and lost replies included, if no child ends before its time is recorded, there is at
  // most one child at a time, no instant is used twice and each is later than the one before, and the history
  // is what the last runs stored.
  lemma OnceEach(c: Config, w: World, steps: seq<Step>)
    requires c.kind.Cron? ==> Progressive(c.kind.next)
    requires Initial(w) && PatientRun(c, w, steps)
    ensures var v := Play(c, w, steps);
      && |v.children| <= 1 && Increasing(v.used) && Increasing(v.stored) && (forall t :: t in v.stored ==> t in v.used)
      && (v.owner.Some? ==> v.owner.value.status.history == Suffix(v.stored))
  {
    RunSound(c, w, steps);
  }

  /* ---------- owners delete themselves for cause ---------- */

  lemma {:induction false} RunSteady(c: Config, w: World, steps: seq<Step>)
    requires c.kind.Cron? ==> Progressive(c.kind.next)
    requires Initial(w)
    ensures Steady(Play(c, w, steps))
    decreases |steps|
  {
    if steps == [] {
      assert MarkAfter([]) == None && Suffix([]) == [];
    } else {
      hide Steady, Next;
      RunSteady(c, w, steps[..|steps| - 1]);
      StepSteady(c, Play(c, w, steps[..|steps| - 1]), steps[|steps| - 1]);
    }
  }

  // The mark this version shows once was the stored one.
  ghost predicate Recalled(w: World, o: Owner) {
    exists p :: 0 <= p <= |w.checks| && o.status.missing == MarkAfter(w.checks[..p])
  }

  ghost predicate Traced(w: World) {
    && (!w.local.Idle? ==> Recalled(w, w.local.copy))
    && (forall o :: o in w.versions ==> Recalled(w, o))
  }

  lemma RecalledStays(w: World, v: World, o: Owner)
    requires Recalled(w, o) && w.checks <= v.checks
    ensures Recalled(v, o)
  {
    var p :| 0 <= p <= |w.checks| && o.status.missing == MarkAfter(w.checks[..p]);
    assert v.checks[..p] == w.checks[..p];
  }

  lemma StoredRecalled(w: World)
    requires Steady(w) && w.owner.Some?
    ensures Recalled(w, w.owner.value)
  {
    assert w.checks[..|w.checks|] == w.checks;
  }

  lemma ChecksGrow(c: Config, w: World, s: Step)
    requires c.kind.Cron? ==> Progressive(c.kind.next)
    ensures w.checks <= Next(c, w, s).checks
  {
    hide Latest, LastMissed, Exists, RemoveAt, Times, Suffix;
  }

  lemma StepTraced(c: Config, w: World, s: Step)
    requires c.kind.Cron? ==> Progressive(c.kind.next)
    requires Steady(w) && Traced(w)
    ensures Traced(Next(c, w, s))
  {
    hide Steady, Take, Moved, Kept, Recalled;
    var v := Next(c, w, s);
    ChecksGrow(c, w, s);
    StepSteady(c, w, s);
    if v.owner.Some? {
      StoredRecalled(v);
    }
    if w.owner.Some? {
      StoredRecalled(w);
      RecalledStays(w, v, w.owner.value);
    }
    StepCopies(c, w, s);
    forall o | o in w.versions || (!w.local.Idle? && o == w.local.copy) ensures Recalled(v, o) {
      RecalledStays(w, v, o);
    }
  }

  // A reconcile keeps its copy, reads one that was stored, or takes over what it stores.
  lemma StepCopies(c: Config, w: World, s: Step)
    requires c.kind.Cron? ==> Progressive(c.kind.next)
    requires Steady(w)
    ensures var v := Next(c, w, s);
      && (forall o :: o in v.versions ==> o in w.versions || v.owner == Some(o))
      && (!v.local.Idle? ==>
            || (!w.local.Idle? && v.local.copy == w.local.copy) || v.owner == Some(v.local.copy)
            || v.local.copy in w.versions)
  {
    if !s.Fetch? {
      hide Steady, Take, Kept;
      TakeKept(c, w, s);
    }
  }

  lemma {:induction false} RunTraced(c: Config, w: World, steps: seq<Step>)
    requires c.kind.Cron? ==> Progressive(c.kind.next)
    requires Initial(w)
    ensures Steady(Play(c, w, steps)) && Traced(Play(c, w, steps))
    decreases |steps|
  {
    RunSteady(c, w, steps);
    if steps == [] {
      StoredRecalled(w);
    } else {
      hide Steady, Next, Traced;
      RunTraced(c, w, steps[..|steps| - 1]);
      StepTraced(c, Play(c, w, steps[..|steps| - 1]), steps[|steps| - 1]);
    }
  }

  predicate DeletesItself(c: Config, w: World, s: Step) {
    && w.owner.Some? && w.local.Adopted? && s.CheckTarget?
    && Expired(w.local.copy.status.missing, Look(c, w, w.local.copy, s.read, s.o), c.threshold)
  }

  // In every run, an owner that deletes itself on the mark of its copy has missed its target at every look for longer
  // than the threshold exactly when that mark is still the stored one and no look that saw the target was left
  // uncleared.
  lemma SelfDeletionIsJustified(c: Config, w: World, steps: seq<Step>, s: Step)
    requires c.kind.Cron? ==> Progressive(c.kind.next)
    requires Initial(w) && DeletesItself(c, Play(c, w, steps), s)
    ensures var v, v' := Play(c, w, steps), Next(c, Play(c, w, steps), s);
      var mark, stored := v.local.copy.status.missing, v.owner.value.status.missing;
      && mark.Some? && v.now > mark.value + c.threshold
      && (mark == stored && AllCleared(v.checks) ==> Justified(v'.checks, mark.value))
      && (Timely(v.checks) ==> (Justified(v'.checks, mark.value) <==> mark == stored && AllCleared(v.checks)))
  {
    hide Play, MarkAfter, Justified, AllCleared, Timely, MissingSince;
    RunTraced(c, w, steps);
    var v := Play(c, w, steps);
    var look := Look(c, v, v.local.copy, s.read, s.o);
    if v.local.copy.status.missing == v.owner.value.status.missing {
      ExpiryIsJustified(v.checks, look, c.threshold);
    } else if Timely(v.checks) {
      var p :| 0 <= p <= |v.checks| && v.local.copy.status.missing == MarkAfter(v.checks[..p]);
      StaleMarkIsWrong(v.checks, p, look);
    }
  }

  // A read that shows the mark that is stored.
  predicate Informed(w: World, s: Step) {
    s.Fetch? && w.local.Idle? && Served(w, s.lag).Some? && w.owner.Some? ==>
      Served(w, s.lag).value.status.missing == w.owner.value.status.missing
  }

  ghost predicate InformedRun(c: Config, w: World, steps: seq<Step>)
    requires c.kind.Cron? ==> Progressive(c.kind.next)
  {
    forall j :: 0 <= j < |steps| ==> Informed(Play(c, w, steps[..j]), steps[j])
  }

  predicate KnowsMark(w: World) {
    !w.local.Idle? && w.owner.Some? ==> w.local.copy.status.missing == w.owner.value.status.missing
  }

  lemma StepKnowsMark(c: Config, w: World, s: Step)
    requires c.kind.Cron? ==> Progressive(c.kind.next)
    requires Steady(w) && KnowsMark(w) && Informed(w, s)
    ensures KnowsMark(Next(c, w, s))
  {
    hide Latest, LastMissed, Exists, RemoveAt, Times, Suffix, Kept, StepCheck;
    if s.CheckTarget? && w.local.Adopted? {
      CheckKnowsMark(c, w, s.read, s.o);
    }
  }

  lemma CheckKnowsMark(c: Config, w: World, read: bool, o: Outcome)
    requires Steady(w) && KnowsMark(w) && w.local.Adopted?
    ensures KnowsMark(StepCheck(c, w, w.local.copy, read, o))
  {
    hide Kept;
  }

  lemma {:induction false} RunKnowsMark(c: Config, w: World, steps: seq<Step>)
    requires c.kind.Cron? ==> Progressive(c.kind.next)
    requires Initial(w) && InformedRun(c, w, steps)
    ensures KnowsMark(Play(c, w, steps))
    decreases |steps|
  {
    if steps != [] {
      hide Next, Steady, Informed, KnowsMark;
      var n := |steps| - 1;
      assert forall j :: 0 <= j <= n ==> steps[..n][..j] == steps[..j];
      RunKnowsMark(c, w, steps[..n]);
      RunSteady(c, w, steps[..n]);
      StepKnowsMark(c, Play(c, w, steps[..n]), steps[n]);
    }
  }

  // Fresh reads are of that kind.
  lemma FreshIsInformed(c: Config, w: World, steps: seq<Step>)
    requires c.kind.Cron? ==> Progressive(c.kind.next)
    requires forall s :: s in steps && s.Fetch? ==> s.lag == 0
    ensures InformedRun(c, w, steps)
  {
    forall j | 0 <= j < |steps| ensures Informed(Play(c, w, steps[..j]), steps[j]) {
      assert steps[j] in steps;
    }
  }

  // So in every run whose reads show the stored mark, an owner deletes itself only after it has missed its target all
  // along, exactly when no look that saw the target was left uncleared; in particular when every such look was stored.
  lemma InformedDeletionIsJustified(c: Config, w: World, steps: seq<Step>, s: Step)
    requires c.kind.Cron? ==> Progressive(c.kind.next)
    requires Initial(w) && InformedRun(c, w, steps) && DeletesItself(c, Play(c, w, steps), s)
    ensures var v, v' := Play(c, w, steps), Next(c, Play(c, w, steps), s);
      var t := v.local.copy.status.missing.value;
      && v.now > t + c.threshold
      && (AllCleared(v.checks) ==> Justified(v'.checks, t))
      && (Timely(v.checks) ==> (Justified(v'.checks, t) <==> AllCleared(v.checks)))
      && ((forall look :: look in v.checks && look.there == Some(true) ==> look.stored) ==> Justified(v'.checks, t))
  {
    hide Play, MarkAfter, Justified, Timely, Next, InformedRun;
    RunKnowsMark(c, w, steps);
    SelfDeletionIsJustified(c, w, steps, s);
  }

  /* ---------- every run of a cron is on its schedule ---------- */

  ghost predicate OnSchedule(c: Config, w: World) {
    c.kind.Cron? && Calendar(c.kind.next) ==>
      && (forall t :: t in w.used ==> Point(c.kind.next, t))
      && (w.local.Decided? ==> Point(c.kind.next, w.local.run))
  }

  lemma StepOnSchedule(c: Config, w: World, s: Step)
    requires c.kind.Cron? ==> Progressive(c.kind.next)
    requires OnSchedule(c, w)
    ensures OnSchedule(c, Next(c, w, s))
  {
    hide StepAdopt, StepCheck, StepSync, StepRecord, LastMissed, Calendar, Point, Exists, Times;
    AsideSteps(c, w, s);
    if s.Decide? && w.local.Synced? && c.kind.Cron? && Calendar(c.kind.next) {
      var status := w.local.copy.status;
      GreatestMissedPoint(c.kind.next, if status.last.Some? then status.last.value else c.kind.created, w.now);
    }
  }

  // The other steps of a reconcile neither create children nor decide on a run.
  lemma AsideSteps(c: Config, w: World, s: Step)
    ensures forall copy, o :: var v := StepAdopt(c, w, copy, o); v.used == w.used && !v.local.Decided?
    ensures forall copy, read, o :: var v := StepCheck(c, w, copy, read, o); v.used == w.used && !v.local.Decided?
    ensures forall copy, there, kids, o ::
      var v := StepSync(w, copy, there, kids, o); v.used == w.used && !v.local.Decided?
    ensures forall copy, run, o :: var v := StepRecord(c, w, copy, run, o); v.used == w.used && !v.local.Decided?
  {
  }

  lemma {:induction false} RunsAreOnSchedule(c: Config, w: World, steps: seq<Step>)
    requires c.kind.Cron? && Calendar(c.kind.next) && Initial(w)
    ensures forall t :: t in Play(c, w, steps).used ==> Point(c.kind.next, t)
    ensures OnSchedule(c, Play(c, w, steps))
    decreases |steps|
  {
    if steps != [] {
      hide Next;
      RunsAreOnSchedule(c, w, steps[..|steps| - 1]);
      StepOnSchedule(c, Play(c, w, steps[..|steps| - 1]), steps[|steps| - 1]);
    }
  }

  /* ---------- every run of a rollout tests a new change ---------- */

  // Between two launches the containers changed.
  ghost predicate Tested(used: seq<nat>, changes: seq<nat>) {
    forall k :: 0 <= k < |used| ==> Fresh(used, k, changes)
  }

  ghost predicate Fresh(used: seq<nat>, k: nat, changes: seq<nat>)
    requires k < |used|
  {
    exists t :: t in changes && t <= used[k] && (k > 0 ==> t > used[k - 1])
  }

  ghost predicate NewChange(last: Option<nat>, run: nat, changes: seq<nat>) {
    exists t :: t in changes && t <= run && (last.Some? ==> t > last.value)
  }

  lemma TestedMore(used: seq<nat>, changes: seq<nat>, run: nat, last: Option<nat>)
    requires Tested(used, changes) && NewChange(last, run, changes) && (used == [] || last == Some(Last(used)))
    ensures Tested(used + [run], changes)
  {
    forall k | 0 <= k < |used| + 1 ensures Fresh(used + [run], k, changes) {
      if k < |used| {
        assert Fresh(used, k, changes);
      } else {
        var t :| t in changes && t <= run && (last.Some? ==> t > last.value);
      }
    }
  }

  lemma MoreChanges(used: seq<nat>, changes: seq<nat>, t: nat)
    requires Tested(used, changes)
    ensures Tested(used, changes + [t])
    ensures forall last, run :: NewChange(last, run, changes) ==> NewChange(last, run, changes + [t])
  {
    assert forall u :: u in changes ==> u in changes + [t];
    forall k | 0 <= k < |used| ensures Fresh(used, k, changes + [t]) {
      assert Fresh(used, k, changes);
    }
  }

  ghost predicate RolloutSound(c: Config, w: World) {
    Tested(w.used, w.changes) && (w.local.Decided? ==> NewChange(w.local.copy.status.last, w.local.run, w.changes))
  }

  lemma StepRollout(c: Config, w: World, s: Step)
    requires c.kind.Rollout? && Sound(c, w) && RolloutSound(c, w)
    ensures RolloutSound(c, Next(c, w, s))
  {
    hide Take, Sound, Tested, NewChange;
    TakeRollout(c, w, s);
  }

  lemma TakeRollout(c: Config, w: World, s: Step)
    requires c.kind.Rollout? && Sound(c, w) && RolloutSound(c, w)
    ensures RolloutSound(c, Take(c, w, s))
  {
    hide Tested, NewChange, StepAdopt, StepCheck, StepSync, StepRecord, Children, Instants, AllLast, Exists,
      MarkAfter, Suffix, Times, RemoveAt;
    AsideSteps(c, w, s);
    AsideChanges(c, w);
    if s.ContainersChange? {
      MoreChanges(w.used, w.changes, w.now);
    }
    if s.Create? && w.local.Decided? && !Exists(w.children, ChildName(c)) {
      TestedMore(w.used, w.changes, w.local.run, w.local.copy.status.last);
    }
    if s.Decide? && w.local.Synced? && Due(c, w.local.copy, w.now).Some? {
      ChangeIsNew(w.local.copy.status, w.now, w.changes);
    }
  }

  lemma ChangeIsNew(s: OwnerStatus, now: nat, changes: seq<nat>)
    requires s.change.Some? && s.change.value in changes && s.change.value <= now
    requires s.last.Some? ==> s.change.value > s.last.value
    ensures NewChange(s.last, now, changes)
  {
  }

  lemma AsideChanges(c: Config, w: World)
    ensures forall copy, o :: StepAdopt(c, w, copy, o).changes == w.changes
    ensures forall copy, read, o :: StepCheck(c, w, copy, read, o).changes == w.changes
    ensures forall copy, there, kids, o :: StepSync(w, copy, there, kids, o).changes == w.changes
    ensures forall copy, run, o :: StepRecord(c, w, copy, run, o).changes == w.changes
  {
  }

  // A rollout launches at most once per change: each launch follows a change later than the launch before.
  lemma {:induction false} LaunchesTestChanges(c: Config, w: World, steps: seq<Step>)
    requires c.kind.Rollout? && Initial(w) && PatientRun(c, w, steps)
    ensures Tested(Play(c, w, steps).used, Play(c, w, steps).changes)
    ensures RolloutSound(c, Play(c, w, steps))
    decreases |steps|
  {
    if steps != [] {
      hide Next, Sound, Patient, Tested;
      var n := |steps| - 1;
      assert forall j :: 0 <= j <= n ==> steps[..n][..j] == steps[..j];
      LaunchesTestChanges(c, w, steps[..n]);
      RunSound(c, w, steps[..n]);
      StepRollout(c, Play(c, w, steps[..n]), steps[n]);
    }
  }

  /* ---------- a run that is due is launched ---------- */

  // One reconcile up to the creation of the child, with every request answered.
  function Pass(lag: nat): seq<Step> {
    [Fetch(lag), Adopt(Done), CheckTarget(true, Done), ListChildren(true, true), Sync(Done), Decide(true), Create(Done)]
  }

  // Nothing but its last run stands in the way of a run of this owner.
  predicate Clear(c: Config, w: World, copy: Owner) {
    && w.local == Idle && w.children == [] && w.target
    && copy.deleting.None? && (c.kind.Rollout? || copy.finalizer) && copy.status.missing.None?
  }

  lemma PlayLast(c: Config, w: World, steps: seq<Step>, s: Step)
    requires c.kind.Cron? ==> Progressive(c.kind.next)
    ensures Play(c, w, steps + [s]) == Next(c, Play(c, w, steps), s)
  {
    assert (steps + [s])[..|steps|] == steps;
  }

  lemma {:induction false} PlayBoth(c: Config, w: World, first: seq<Step>, second: seq<Step>)
    requires c.kind.Cron? ==> Progressive(c.kind.next)
    ensures Play(c, w, first + second) == Play(c, Play(c, w, first), second)
    decreases |second|
  {
    hide Next;
    if second == [] {
      assert first + second == first;
    } else {
      var n := |second| - 1;
      PlayBoth(c, w, first, second[..n]);
      assert (first + second)[..|first + second| - 1] == first + second[..n];
    }
  }

  lemma PassPlays(c: Config, w: World, lag: nat)
    requires c.kind.Cron? ==> Progressive(c.kind.next)
    ensures Play(c, w, Pass(lag)) ==
      Next(c, Next(c, Next(c, Next(c, Next(c, Next(c, Next(c, w, Fetch(lag)), Adopt(Done)), CheckTarget(true, Done)),
        ListChildren(true, true)), Sync(Done)), Decide(true)), Create(Done))
  {
    hide Next;
    var p1 := [Fetch(lag)];
    var p2 := p1 + [Adopt(Done)];
    var p3 := p2 + [CheckTarget(true, Done)];
    var p4 := p3 + [ListChildren(true, true)];
    var p5 := p4 + [Sync(Done)];
    var p6 := p5 + [Decide(true)];
    assert [] + [Fetch(lag)] == p1;
    PlayLast(c, w, [], Fetch(lag));
    PlayLast(c, w, p1, Adopt(Done));
    PlayLast(c, w, p2, CheckTarget(true, Done));
    PlayLast(c, w, p3, ListChildren(true, true));
    PlayLast(c, w, p4, Sync(Done));
    PlayLast(c, w, p5, Decide(true));
    PlayLast(c, w, p6, Create(Done));
    assert p6 + [Create(Done)] == Pass(lag);
  }

  // The world after such a reconcile: the run that is due according to the copy it got has its child.
  function Launched(c: Config, w: World, copy: Owner): World
    requires c.kind.Cron? ==> Progressive(c.kind.next)
  {
    var checks := w.checks + [Check(w.now, Some(true), Stored(w, copy, Done))];
    var run := Due(c, copy, w.now);
    if run.None? then w.(checks := checks)
    else
      w.(children := [Child(ChildName(c), run.value)], used := w.used + [run.value], checks := checks,
         local := Posted(copy, run.value))
  }

  // An undisturbed reconcile creates the child of the run that is due, and none if none is.
  lemma DueRunIsLaunched(c: Config, w: World, lag: nat, copy: Owner)
    requires c.kind.Cron? ==> Progressive(c.kind.next)
    requires Served(w, lag) == Some(copy) && Clear(c, w, copy)
    ensures Play(c, w, Pass(lag)) == Launched(c, w, copy)
  {
    hide Next, Due;
    PassPlays(c, w, lag);
    PassLooks(c, w, lag, copy);
    PassDecides(c, w, copy);
  }

  lemma PassLooks(c: Config, w: World, lag: nat, copy: Owner)
    requires c.kind.Cron? ==> Progressive(c.kind.next)
    requires Served(w, lag) == Some(copy) && Clear(c, w, copy)
    ensures Next(c, Next(c, Next(c, w, Fetch(lag)), Adopt(Done)), CheckTarget(true, Done)) == Looked(w, copy)
  {
    var w0 := w.(local := Fetched(copy));
    assert Next(c, w, Fetch(lag)) == w0;
    assert Next(c, w0, Adopt(Done)) == w.(local := Adopted(copy));
    assert Next(c, w.(local := Adopted(copy)), CheckTarget(true, Done)) == Looked(w, copy);
  }

  // The target is there.
  function Looked(w: World, copy: Owner): World {
    w.(checks := w.checks + [Check(w.now, Some(true), Stored(w, copy, Done))], local := Checked(copy, true))
  }

  lemma PassLists(c: Config, w: World, copy: Owner)
    requires c.kind.Cron? ==> Progressive(c.kind.next)
    requires w.local == Checked(copy, true) && w.children == []
    ensures Next(c, Next(c, w, ListChildren(true, true)), Sync(Done)) == w.(local := Synced(copy, true, []))
  {
    assert Times(w.children) == [];
    assert Next(c, w, ListChildren(true, true)) == w.(local := Listed(copy, true, []));
  }

  lemma PassCreates(c: Config, w: World, copy: Owner)
    requires c.kind.Cron? ==> Progressive(c.kind.next)
    requires w.local == Synced(copy, true, []) && w.children == []
    ensures var run := Due(c, copy, w.now);
      Next(c, Next(c, w, Decide(true)), Create(Done)) ==
      if run.None? then w.(local := Idle)
      else
        w.(children := [Child(ChildName(c), run.value)], used := w.used + [run.value],
           local := Posted(copy, run.value))
  {
    hide Due;
    var run := Due(c, copy, w.now);
    assert Next(c, w, Decide(true)) == w.(local := if run.Some? then Decided(copy, run.value) else Idle);
    if run.Some? {
      assert w.children + [Child(ChildName(c), run.value)] == [Child(ChildName(c), run.value)];
    }
  }

  lemma PassDecides(c: Config, w: World, copy: Owner)
    requires c.kind.Cron? ==> Progressive(c.kind.next)
    requires Clear(c, w, copy)
    ensures Next(c, Next(c, Next(c, Next(c, Looked(w, copy), ListChildren(true, true)), Sync(Done)), Decide(true)),
      Create(Done)) == Launched(c, w, copy)
  {
    hide Due, Next;
    PassLists(c, Looked(w, copy), copy);
    PassCreates(c, Looked(w, copy).(local := Synced(copy, true, [])), copy);
  }

  // When the run that was due at `now` is due again, or still, at a later time for the same copy of a cron: as long as
  // the schedule has no later point and the tolerance has not passed. Otherwise a later run is due, or none.
  lemma DueAgain(c: Config, copy: Owner, now: nat, later: nat)
    requires c.kind.Cron? && Progressive(c.kind.next) && now <= later && Due(c, copy, now).Some?
    ensures var run, again := Due(c, copy, now).value, Due(c, copy, later);
      && (again == Some(run) <==> StillDue(c, copy, run, later))
      && (again.Some? && again != Some(run) ==> again.value > run)
  {
    var earliest := if copy.status.last.Some? then copy.status.last.value else c.kind.created;
    LastMissedLater(c.kind.next, earliest, now, later);
  }

  // The schedule has no later point by then, and the tolerance has not passed.
  predicate StillDue(c: Config, copy: Owner, run: nat, now: nat)
    requires c.kind.Cron?
  {
    c.kind.next(run) > now && !(copy.tolerance > 0 && run + copy.tolerance < now)
  }

  // Without patience an instant is used twice. The controller crashes before it records a run and the child ends;
  // some time later the owner is reconciled again. A cron uses the same instant exactly if the run is still due;
  // otherwise it uses a later one, or none.
  lemma EndedTooEarly(c: Config, w: World, d: nat)
    requires c.kind.Cron? ==> Progressive(c.kind.next)
    requires w.owner.Some? && Clear(c, w, w.owner.value) && Due(c, w.owner.value, w.now).Some?
    ensures var run, again := Due(c, w.owner.value, w.now).value, Due(c, w.owner.value, w.now + d);
      && Play(c, w, Pass(0) + [Crash, ChildEnds(0), Elapse(d)] + Pass(0)).used == Uses(w.used, run, again)
      && (c.kind.Cron? ==>
            (Uses(w.used, run, again) == w.used + [run, run] <==> StillDue(c, w.owner.value, run, w.now + d)))
      && (c.kind.Cron? && again.Some? ==> again.value >= run)
  {
    hide Next, Due;
    var run, again := Due(c, w.owner.value, w.now).value, Due(c, w.owner.value, w.now + d);
    UsedTwice(w.used, run, again);
    if c.kind.Cron? {
      DueAgain(c, w.owner.value, w.now, w.now + d);
    }
    DueRunIsLaunched(c, w, 0, w.owner.value);
    var v := Play(c, w, Pass(0));
    PlayThree(c, w, Pass(0), Crash, ChildEnds(0), Elapse(d));
    CrashAndEnd(c, v, d);
    var u := v.(local := Idle, children := [], now := v.now + d);
    DueRunIsLaunched(c, u, 0, w.owner.value);
    PlayBoth(c, w, Pass(0) + [Crash, ChildEnds(0), Elapse(d)], Pass(0));
  }

  // Nor is patience with children enough: the run is recorded, the child ends, and then a read serves the version of
  // the owner before the record.
  lemma StaleReadRepeats(c: Config, w: World, d: nat)
    requires c.kind.Cron? && Progressive(c.kind.next)
    requires w.owner.Some? && w.versions != [] && w.versions[|w.versions| - 1] == w.owner.value
    requires Clear(c, w, w.owner.value) && Due(c, w.owner.value, w.now).Some?
    ensures var run, again := Due(c, w.owner.value, w.now).value, Due(c, w.owner.value, w.now + d);
      && Play(c, w, Pass(0) + [Record(Done), ChildEnds(0), Elapse(d)]).owner.Some?
      && Play(c, w, Pass(0) + [Record(Done), ChildEnds(0), Elapse(d)]).owner.value.status.last == Some(run)
      && Play(c, w, Pass(0) + [Record(Done), ChildEnds(0), Elapse(d)] + Pass(2)).used == Uses(w.used, run, again)
      && (Uses(w.used, run, again) == w.used + [run, run] <==> StillDue(c, w.owner.value, run, w.now + d))
  {
    hide Next, Due;
    var run, again := Due(c, w.owner.value, w.now).value, Due(c, w.owner.value, w.now + d);
    UsedTwice(w.used, run, again);
    DueAgain(c, w.owner.value, w.now, w.now + d);
    DueRunIsLaunched(c, w, 0, w.owner.value);
    var v := Play(c, w, Pass(0));
    PlayThree(c, w, Pass(0), Record(Done), ChildEnds(0), Elapse(d));
    RecordAndEnd(c, v, d);
    var u := Next(c, Next(c, Next(c, v, Record(Done)), ChildEnds(0)), Elapse(d));
    DueRunIsLaunched(c, u, 2, w.owner.value);
    PlayBoth(c, w, Pass(0) + [Record(Done), ChildEnds(0), Elapse(d)], Pass(2));
  }

  // The instants used after a run and perhaps another one.
  function Uses(used: seq<nat>, run: nat, again: Option<nat>): seq<nat> {
    used + [run] + if again.Some? then [again.value] else []
  }

  lemma UsedTwice(used: seq<nat>, run: nat, again: Option<nat>)
    ensures Uses(used, run, again) == used + [run, run] <==> again == Some(run)
  {
    if again.Some? {
      assert Uses(used, run, again)[|used| + 1] == again.value;
      assert used + [run] + [run] == used + [run, run];
    }
  }

  lemma PlayThree(c: Config, w: World, steps: seq<Step>, s1: Step, s2: Step, s3: Step)
    requires c.kind.Cron? ==> Progressive(c.kind.next)
    ensures Play(c, w, steps + [s1, s2, s3]) == Next(c, Next(c, Next(c, Play(c, w, steps), s1), s2), s3)
  {
    hide Next;
    PlayLast(c, w, steps, s1);
    PlayLast(c, w, steps + [s1], s2);
    PlayLast(c, w, steps + [s1] + [s2], s3);
    assert steps + [s1] + [s2] + [s3] == steps + [s1, s2, s3];
  }

  lemma CrashAndEnd(c: Config, v: World, d: nat)
    requires c.kind.Cron? ==> Progressive(c.kind.next)
    requires |v.children| == 1
    ensures Next(c, Next(c, Next(c, v, Crash), ChildEnds(0)), Elapse(d)) ==
      v.(local := Idle, children := [], now := v.now + d)
  {
    assert RemoveAt(v.children, 0) == [];
  }

  lemma RecordAndEnd(c: Config, v: World, d: nat)
    requires c.kind.Cron? && Progressive(c.kind.next)
    requires |v.children| == 1 && v.local.Posted? && v.owner == Some(v.local.copy)
    requires v.versions != [] && v.versions[|v.versions| - 1] == v.owner.value
    ensures var u := Next(c, Next(c, Next(c, v, Record(Done)), ChildEnds(0)), Elapse(d));
      && u.local == Idle && u.children == [] && u.now == v.now + d && u.target == v.target && u.used == v.used
      && u.owner.Some? && u.owner.value.status.last == Some(v.local.run) && Served(u, 2) == v.owner
  {
    hide Suffix;
    var w1 := Next(c, v, Record(Done));
    assert w1.owner.value.version == v.owner.value.version + 1;
    assert w1.versions == v.versions + [w1.owner.value] && w1.children == v.children;
    assert RemoveAt(v.children, 0) == [];
  }

  // Such runs exist: a cron every ten seconds, created at 5 and first reconciled at 12.
  lemma InstantUsedTwice() returns (c: Config, w: World, steps: seq<Step>)
    ensures c.kind.Cron? && Calendar(c.kind.next) && Initial(w) && !Increasing(Play(c, w, steps).used)
  {
    hide Play, Pass, Calendar;
    var next := (t: nat) => t + 10 - t % 10;
    EveryTenSeconds(next);
    c := Config(Cron(next, 5), "cron", 60, 0);
    var owner := Owner(OwnerStatus(None, [], None, None), false, 0, None, true, 0);
    w := World(Some(owner), [owner], [], 12, true, Idle, [], [], [], []);
    assert next(5) == 10 && next(10) == 20;
    assert LastMissed(next, 10, 12) == None;
    assert Due(c, w.owner.value, w.now) == Some(10) && w.now + 0 == 12;
    steps := Pass(0) + [Crash, ChildEnds(0), Elapse(0)] + Pass(0);
    EndedTooEarly(c, w, 0);
    var used := Uses([], 10, Some(10));
    assert used[0] == used[1] == 10;
  }

  lemma EveryTenSeconds(next: nat -> nat)
    requires forall t: nat :: next(t) == t + 10 - t % 10
    ensures Calendar(next)
  {
    forall s: nat, t: nat | s <= t < next(s) ensures next(t) == next(s) {
      assert s / 10 == t / 10;
    }
  }

  /* ---------- a stale read may show a mark that was cleared ---------- */

  function Glimpse(lag: nat): seq<Step> {
    [Fetch(lag), Adopt(Done), CheckTarget(true, Done)]
  }

  // The owner looks at its target, and then the target comes or goes and time passes.
  function Round(there: bool, seconds: nat): seq<Step> {
    Glimpse(0) + [Crash, TargetComesOrGoes(there), Elapse(seconds)]
  }

  // The owner misses its target, sees it `back` seconds later and stores both, and the target goes again.
  function SeenAgain(back: nat, gone: nat): seq<Step> {
    Round(true, back) + Round(false, gone)
  }

  // What such runs come to.
  function Glimpsed(w: World): World
    requires w.owner.Some?
  {
    var o := w.owner.value;
    var o' := o.(status := o.status.(missing := if w.target then None else Some(w.now)), version := o.version + 1);
    w.(owner := Some(o'), versions := w.versions + [o'], local := Checked(o', w.target),
       checks := w.checks + [Check(w.now, Some(w.target), true)])
  }

  function AfterRound(w: World, there: bool, seconds: nat): World
    requires w.owner.Some?
  {
    Glimpsed(w).(local := Idle, target := there, now := w.now + seconds)
  }

  function AfterSight(w: World, back: nat, gone: nat): World
    requires w.owner.Some?
  {
    AfterRound(AfterRound(w, true, back), false, gone)
  }

  lemma GlimpseStores(c: Config, w: World)
    requires c.kind.Cron? ==> Progressive(c.kind.next)
    requires w.local.Idle? && w.owner.Some? && w.owner.value.deleting.None?
    requires (c.kind.Rollout? || w.owner.value.finalizer) && w.target == w.owner.value.status.missing.Some?
    ensures Next(c, Next(c, Next(c, w, Fetch(0)), Adopt(Done)), CheckTarget(true, Done)) == Glimpsed(w)
  {
    assert Next(c, w, Fetch(0)) == w.(local := Fetched(w.owner.value));
    assert Next(c, w.(local := Fetched(w.owner.value)), Adopt(Done)) == w.(local := Adopted(w.owner.value));
  }

  lemma MeanwhilePasses(c: Config, w: World, there: bool, seconds: nat)
    requires c.kind.Cron? ==> Progressive(c.kind.next)
    ensures Next(c, Next(c, Next(c, w, Crash), TargetComesOrGoes(there)), Elapse(seconds)) ==
      w.(local := Idle, target := there, now := w.now + seconds)
  {
  }

  lemma RoundPasses(c: Config, w: World, there: bool, seconds: nat)
    requires c.kind.Cron? ==> Progressive(c.kind.next)
    requires w.local.Idle? && w.owner.Some? && w.owner.value.deleting.None?
    requires (c.kind.Rollout? || w.owner.value.finalizer) && w.target == w.owner.value.status.missing.Some?
    ensures Play(c, w, Round(there, seconds)) == AfterRound(w, there, seconds)
  {
    assert Play(c, w, []) == w && [] + Glimpse(0) == Glimpse(0);
    hide Play, Next, Glimpsed;
    PlayThree(c, w, [], Fetch(0), Adopt(Done), CheckTarget(true, Done));
    GlimpseStores(c, w);
    PlayThree(c, w, Glimpse(0), Crash, TargetComesOrGoes(there), Elapse(seconds));
    MeanwhilePasses(c, Glimpsed(w), there, seconds);
  }

  lemma SightIsStored(c: Config, w: World, back: nat, gone: nat)
    requires c.kind.Cron? ==> Progressive(c.kind.next)
    requires Initial(w) && !w.target && w.owner.value.deleting.None? && (c.kind.Rollout? || w.owner.value.finalizer)
    ensures Play(c, w, SeenAgain(back, gone)) == AfterSight(w, back, gone)
  {
    hide Play, Round;
    PlayBoth(c, w, Round(true, back), Round(false, gone));
    RoundPasses(c, w, true, back);
    RoundPasses(c, AfterRound(w, true, back), false, gone);
  }

  lemma MarkIsRead(c: Config, w: World, back: nat, gone: nat)
    requires c.kind.Cron? ==> Progressive(c.kind.next)
    requires Initial(w) && !w.target && w.owner.value.deleting.None? && (c.kind.Rollout? || w.owner.value.finalizer)
    ensures var v := AfterSight(w, back, gone);
      && |v.versions| == 3 && Patient(Play(c, w, SeenAgain(back, gone)), Fetch(2))
      && Play(c, w, SeenAgain(back, gone) + [Fetch(2), Adopt(Done)]) == v.(local := Adopted(v.versions[1]))
  {
    hide Play, SeenAgain;
    var run := SeenAgain(back, gone);
    SightIsStored(c, w, back, gone);
    PlayLast(c, w, run, Fetch(2));
    PlayLast(c, w, run + [Fetch(2)], Adopt(Done));
    assert run + [Fetch(2)] + [Adopt(Done)] == run + [Fetch(2), Adopt(Done)];
  }

  // For every owner and every such run past the threshold: a reconcile that reads the version before the clear deletes
  // the owner, although its target was seen and every look was stored.
  lemma ClearedYetDeleted(c: Config, w: World, back: nat, gone: nat)
    requires c.kind.Cron? ==> Progressive(c.kind.next)
    requires Initial(w) && !w.target && w.owner.value.deleting.None? && (c.kind.Rollout? || w.owner.value.finalizer)
    requires back > 0 && back + gone > c.threshold
    ensures var steps, s := SeenAgain(back, gone) + [Fetch(2), Adopt(Done)], CheckTarget(true, Done);
      var v := Play(c, w, steps);
      && DeletesItself(c, v, s) && (forall look :: look in v.checks ==> look.stored) && Timely(v.checks)
      && AllCleared(v.checks) && Patient(Play(c, w, SeenAgain(back, gone)), Fetch(2))
      && !Justified(Next(c, v, s).checks, v.local.copy.status.missing.value)
  {
    hide Play, SeenAgain, Justified, Next;
    MarkIsRead(c, w, back, gone);
    SelfDeletionIsJustified(c, w, SeenAgain(back, gone) + [Fetch(2), Adopt(Done)], CheckTarget(true, Done));
  }

  // A concrete such run, with a threshold of fifty seconds.
  lemma DeletedOnClearedMark() returns (c: Config, w: World, steps: seq<Step>, s: Step)
    ensures c.kind.Rollout? && Initial(w) && DeletesItself(c, Play(c, w, steps), s)
    ensures var v := Play(c, w, steps);
      && Timely(v.checks) && AllCleared(v.checks)
      && !Justified(Next(c, v, s).checks, v.local.copy.status.missing.value)
  {
    hide Play, Next, SeenAgain, Justified, AllCleared, Timely;
    c := Config(Rollout, "rollout", 50, 0);
    var owner := Owner(OwnerStatus(None, [], None, None), false, 0, None, false, 0);
    w := World(Some(owner), [owner], [], 1, false, Idle, [], [], [], []);
    steps, s := SeenAgain(1, 100) + [Fetch(2), Adopt(Done)], CheckTarget(true, Done);
    ClearedYetDeleted(c, w, 1, 100);
  }

  /* ---------- the controllers ---------- */

  // The steps of the controller among all.
  function Mine(steps: seq<Step>): seq<Step> {
    if steps == [] then []
    else Mine(steps[..|steps| - 1]) + if OfController(steps[|steps| - 1]) then [steps[|steps| - 1]] else []
  }

  // A stretch of a run in which the controller made just these steps.
  ghost predicate Went(before: seq<Step>, after: seq<Step>, mine: seq<Step>) {
    before <= after && Mine(after) == Mine(before) + mine
  }

  lemma WentNowhere(steps: seq<Step>)
    ensures Went(steps, steps, [])
  {
  }

  lemma WentOne(steps: seq<Step>, s: Step)
    ensures Went(steps, steps + [s], if OfController(s) then [s] else [])
  {
    assert (steps + [s])[..|steps|] == steps;
  }

  lemma WentOn(a: seq<Step>, b: seq<Step>, c: seq<Step>, mine: seq<Step>, more: seq<Step>)
    requires Went(a, b, mine) && Went(b, c, more)
    ensures Went(a, c, mine + more)
  {
    assert Mine(a) + mine + more == Mine(a) + (mine + more);
  }

  // The steps of a reconcile: it looks, and goes on as far as it has reason to.
  predicate PassShape(mine: seq<Step>, seen: bool, built: bool) {
    && 4 <= |mine| <= 8
    && mine[0].Fetch? && mine[1].Adopt? && mine[2].CheckTarget? && mine[3].ListChildren? && mine[3].seen == seen
    && (|mine| > 4 ==> mine[4].Sync?) && (|mine| > 5 ==> mine[5] == Decide(built))
    && (|mine| > 6 ==> mine[6].Create?) && (|mine| > 7 ==> mine[7].Record?)
  }

  class OwnerReconciler {
    const config: Config
    var w: World
    var moves: seq<seq<Step>>      // what the world does before each of the coming requests
    var outcomes: seq<Outcome>     // what becomes of the coming writes
    var answers: seq<bool>         // and whether the coming reads succeed
    ghost const start: World
    ghost var steps: seq<Step>     // everything that happened so far

    ghost predicate Valid()
      reads this
    {
      && (config.kind.Cron? ==> Progressive(config.kind.next))
      && Initial(start) && w == Play(config, start, steps)
    }

    constructor (config: Config, w: World)
      requires Initial(w) && (config.kind.Cron? ==> Progressive(config.kind.next))
      ensures Valid() && this.config == config && this.w == w && steps == [] && start == w
    {
      this.config, this.w, start := config, w, w;
      moves, outcomes, answers, steps := [], [], [], [];
    }

    method Interfere()
      requires Valid()
      modifies this
      ensures Valid() && Went(old(steps), steps, []) && (w.local == old(w.local) || w.local == Idle)
    {
      hide Went;
      WentNowhere(steps);
      if moves != [] {
        var batch := moves[0];
        moves := moves[1..];
        for n := 0 to |batch|
          invariant Valid() && Went(old(steps), steps, []) && (w.local == old(w.local) || w.local == Idle)
        {
          if !OfController(batch[n]) {
            PlayLast(config, start, steps, batch[n]);
            WentOne(steps, batch[n]);
            WentOn(old(steps), steps, steps + [batch[n]], [], []);
            steps, w := steps + [batch[n]], Next(config, w, batch[n]);
          }
        }
      }
    }

    method Outcome() returns (o: Outcome)
      requires Valid()
      modifies this`outcomes
      ensures Valid()
    {
      o := Done;
      if outcomes != [] {
        o, outcomes := outcomes[0], outcomes[1..];
      }
    }

    method Read() returns (ok: bool)
      requires Valid()
      modifies this`answers
      ensures Valid()
    {
      ok := true;
      if answers != [] {
        ok, answers := answers[0], answers[1..];
      }
    }

    // What a step makes of the world has happened.
    method Become(s: Step, v: World)
      requires Valid() && v == Take(config, w, s)
      modifies this`w, this`steps
      ensures Valid() && steps == old(steps) + [s] && w == Next(config, old(w), s)
    {
      PlayLast(config, start, steps, s);
      steps, w := steps + [s], Noted(w, v);
    }

    // updateLastScheduleTime
    method UpdateLastScheduleTime(o: Outcome)
      requires Valid() && w.local.Listed?
      modifies this`w, this`steps
      ensures Valid() && steps == old(steps) + [Sync(o)] && w == Next(config, old(w), Sync(o))
    {
      hide Valid, Noted, Latest;
      var local, v := w.local, w;
      var latest := MostRecent(local.kids);
      LatestUnique(local.kids, latest);
      if latest == 0 {
        v := w.(local := Synced(local.copy, local.there, local.kids));
      } else if Stored(w, local.copy, o) {
        var owner := Wrote(w, local.copy.status.(last := Some(latest)));
        v := w.(owner := Some(owner), local := if o == Done then Synced(owner, local.there, local.kids) else Idle);
      } else {
        v := w.(local := Idle);
      }
      Become(Sync(o), v);
    }

    // The checks before a launch, in the order each controller makes them.
    method DecideRun(built: bool)
      requires Valid() && w.local.Synced?
      modifies this`w, this`steps
      ensures Valid() && steps == old(steps) + [Decide(built)] && w == Next(config, old(w), Decide(built))
    {
      hide Noted;
      var copy, there, kids := w.local.copy, w.local.there, w.local.kids;
      var run := None;
      match config.kind {
        case Cron(next, created) =>
          if !copy.paused {
            var earliest := if copy.status.last.Some? then copy.status.last.value else created;
            var missed, upcoming := GetNextSchedule(next, earliest, w.now);
            if missed.Some? && there && kids == [] && !(copy.tolerance > 0 && missed.value + copy.tolerance < w.now) {
              run := missed;
            }
          }
        case Rollout =>
          if there && copy.status.change.Some? {
            var change := copy.status.change.value;
            var tested := copy.status.last.Some? && change <= copy.status.last.value;
            if !tested && kids == [] && !(copy.tolerance > 0 && change + copy.tolerance < w.now) {
              run := Some(w.now);
            }
          }
      }
      Become(Decide(built), w.(local := if run.Some? && built then Decided(copy, run.value) else Idle));
    }

    // The start time and, for crons, the history entry of the run just launched.
    method RecordRun(o: Outcome)
      requires Valid() && w.local.Posted?
      modifies this`w, this`steps
      ensures Valid() && steps == old(steps) + [Record(o)] && w == Next(config, old(w), Record(o))
    {
      hide Valid, Noted;
      var copy, run, v := w.local.copy, w.local.run, w;
      var status := copy.status.(last := Some(run));
      if config.kind.Cron? {
        status := status.(history := status.history + [run]);
        if |status.history| > MAX_HISTORY {
          status := status.(history := status.history[|status.history| - MAX_HISTORY..]);
        }
      }
      if Stored(w, copy, o) {
        v := w.(owner := Some(Wrote(w, status)), stored := if config.kind.Cron? then w.stored + [run] else w.stored);
      }
      Become(Record(o), v.(local := Idle));
    }

    method Request(s: Step)
      requires Valid()
      modifies this`w, this`steps
      ensures Valid() && w == Next(config, old(w), s) && steps == old(steps) + [s]
    {
      Become(s, Take(config, w, s));
    }

    // One request of the controller, and what the world does before it.
    method Make(s: Step)
      requires Valid() && OfController(s)
      modifies this
      ensures Valid() && Went(old(steps), steps, [s])
      ensures old(w.local) == Idle && !s.Fetch? ==> w.local == Idle
      ensures s.Fetch? && old(w.local) == Idle ==> w.local.Idle? || w.local.Fetched?
      ensures s.Adopt? && old(w.local).Fetched? ==> w.local.Idle? || w.local.Adopted?
      ensures s.CheckTarget? && old(w.local).Adopted? ==> w.local.Idle? || w.local.Checked?
      ensures s.ListChildren? && old(w.local).Checked? ==> w.local.Idle? || w.local.Listed?
      ensures s.Create? && old(w.local).Decided? ==> w.local.Idle? || w.local.Posted?
    {
      hide Went, Valid, Mine;
      Interfere();
      WentOne(steps, s);
      WentOn(old(steps), steps, steps + [s], [], [s]);
      Request(s);
      assert [] + [s] == [s];
    }

    // Up to the list of children.
    method Observe(lag: nat, seen: bool) returns (ghost mine: seq<Step>)
      requires Valid() && w.local.Idle?
      modifies this
      ensures Valid() && Went(old(steps), steps, mine) && PassShape(mine, seen, false) && |mine| == 4
      ensures w.local.Idle? || w.local.Listed?
    {
      hide Valid, Went;
      Make(Fetch(lag));
      ghost var s1 := steps;
      var o := Outcome();
      Make(Adopt(o));
      WentOn(old(steps), s1, steps, [Fetch(lag)], [Adopt(o)]);
      ghost var s2 := steps;
      var read := Read();
      var o' := Outcome();
      Make(CheckTarget(read, o'));
      WentOn(old(steps), s2, steps, [Fetch(lag)] + [Adopt(o)], [CheckTarget(read, o')]);
      ghost var s3 := steps;
      var read' := Read();
      Make(ListChildren(read', seen));
      mine := [Fetch(lag)] + [Adopt(o)] + [CheckTarget(read, o')] + [ListChildren(read', seen)];
      WentOn(old(steps), s3, steps, [Fetch(lag)] + [Adopt(o)] + [CheckTarget(read, o')], [ListChildren(read', seen)]);
    }

    // What follows when there is a list: the last run is brought up to date, and a run that is due is launched.
    method Launch(built: bool) returns (ghost mine: seq<Step>)
      requires Valid() && w.local.Listed?
      modifies this
      ensures Valid() && Went(old(steps), steps, mine)
      ensures 1 <= |mine| <= 4 && mine[0].Sync? && (|mine| > 1 ==> mine[1] == Decide(built))
      ensures (|mine| > 2 ==> mine[2].Create?) && (|mine| > 3 ==> mine[3].Record?)
    {
      hide Valid, Went;
      var o := Outcome();
      WentOne(steps, Sync(o));
      UpdateLastScheduleTime(o);
      mine := [Sync(o)];
      ghost var s1 := steps;
      Interfere();
      WentOn(old(steps), s1, steps, mine, []);
      assert mine + [] == mine;
      if !w.local.Synced? {
        return;
      }
      ghost var s2 := steps;
      WentOne(steps, Decide(built));
      DecideRun(built);
      WentOn(old(steps), s2, steps, mine, [Decide(built)]);
      mine := mine + [Decide(built)];
      if !w.local.Decided? {
        return;
      }
      ghost var s3 := steps;
      o := Outcome();
      Make(Create(o));
      WentOn(old(steps), s3, steps, mine, [Create(o)]);
      mine := mine + [Create(o)];
      ghost var s4 := steps;
      Interfere();
      WentOn(old(steps), s4, steps, mine, []);
      assert mine + [] == mine;
      if w.local.Posted? {
        ghost var s5 := steps;
        o := Outcome();
        WentOne(steps, Record(o));
        RecordRun(o);
        WentOn(old(steps), s5, steps, mine, [Record(o)]);
        mine := mine + [Record(o)];
      }
    }

    // A reconcile is a sequence of steps of the protocol, in the order of a pass, with the world moving in between:
    // what every run of the protocol keeps, it keeps.
    method Reconcile(lag: nat, seen: bool, built: bool) returns (ghost mine: seq<Step>)
      requires Valid() && w.local.Idle?
      modifies this
      ensures Valid() && Went(old(steps), steps, mine) && PassShape(mine, seen, built)
      ensures PatientRun(config, start, steps) ==> |w.children| <= 1 && Increasing(w.used)
    {
      hide Went;
      mine := Observe(lag, seen);
      ghost var s1 := steps;
      Interfere();
      WentOn(old(steps), s1, steps, mine, []);
      assert mine + [] == mine;
      if w.local.Listed? {
        ghost var s2 := steps;
        ghost var more := Launch(built);
        WentOn(old(steps), s2, steps, mine, more);
        mine := mine + more;
      }
      if PatientRun(config, start, steps) {
        OnceEach(config, start, steps);
      }
    }
  }

  lemma LatestUnique(times: seq<nat>, t: nat)
    requires times == [] ==> t == 0
    requires times != [] ==> t in times && forall u :: u in times ==> u <= t
    ensures Latest(times) == t
  {
    if times != [] {
      assert times[0] in times;
    }
  }
}
