// The watcher of one Kubernetes service (injector/network_disruption.go, watchServiceChanges and its two
// event handlers).
module ServiceWatching {
  import opened DisruptionTypes
  import opened TrafficControl
  import opened HostFilters
  import opened ServiceFilters
  import Selection
  import Text

  datatype EventType = Added | Modified | Deleted | Bookmark | Error

  datatype ServicePort = ServicePort(port: int, targetPort: int, protocol: string)

  // A service event: whether it is for the watched service, what the service exposes, and the pods found
  // behind it (None when they could not be listed).
  datatype ServiceEvent = ServiceEvent(
    kind: EventType, watched: bool, headless: bool, clusterIp: Ip, ports: seq<ServicePort>,
    pods: Option<seq<Option<Ip>>>)

  datatype PodEvent = PodEvent(kind: EventType, name: string, ip: Option<Ip>)

  function TargetPorts(ports: seq<ServicePort>): seq<Port> {
    seq(|ports|, j requires 0 <= j < |ports| => Port(ports[j].targetPort, ports[j].protocol))
  }

  function ClusterPorts(ports: seq<ServicePort>): seq<Port> {
    seq(|ports|, j requires 0 <= j < |ports| => Port(ports[j].port, ports[j].protocol))
  }

  // On the given interfaces, the priorities ever given that hold a filter are those of the ledger.
  ghost predicate Tight(k: Kernel, ifaces: seq<Iface>, given: set<nat>, ledger: set<nat>) {
    ledger <= given && forall q, i :: q in given && i in ifaces ==> (Lookup(k, i, q).Some? <==> q in ledger)
  }

  /* ---------- how the ledger operations keep it tight ---------- */

  lemma NotedPriorities(built: seq<ServiceFilter>, base: nat, services: seq<Service>)
    requires ServicesNoted(built, base, services) && AllSingle(services)
    ensures Priorities(built) == Above(base, base + |services|) && Ascending(built)
  {
    forall j | 0 <= j < |built| ensures built[j].priority == base + j + 1 {
      NotedAt(built, base, services, j);
      SinglePlan(services, j + 1);
    }
    forall p | p in Above(base, base + |services|) ensures p in Priorities(built) {
      assert built[p - base - 1].priority == p;
    }
  }

  lemma TightAfterAdding(k: Kernel, k': Kernel, ifaces: seq<Iface>, given: set<nat>, ledger: set<nat>, base: nat,
                         services: seq<Service>, built: seq<ServiceFilter>)
    requires Tight(k, ifaces, given, ledger) && (forall q :: q in given ==> q <= base)
    requires Installed(k, k', ifaces, base, ServicePlan(services), Disrupted)
    requires ServicesNoted(built, base, services) && AllSingle(services)
    ensures Tight(k', ifaces, given + Above(base, base + |services|), ledger + Priorities(built))
  {
    NotedPriorities(built, base, services);
    SinglePlan(services, |services|);
    assert services[..|services|] == services;
  }

  lemma TightAfterClearing(k: Kernel, k': Kernel, ifaces: seq<Iface>, given: set<nat>, ledger: set<nat>, gone: set<nat>)
    requires Tight(k, ifaces, given, ledger) && Cleared(k, k', ifaces, gone)
    ensures Tight(k', ifaces, given, ledger - gone)
  {
  }

  lemma TightAfterExchange(k: Kernel, k': Kernel, ifaces: seq<Iface>, given: set<nat>, ledger: set<nat>,
                           dropped: set<nat>, base: nat, services: seq<Service>, built: seq<ServiceFilter>)
    requires Tight(k, ifaces, given, ledger) && (forall q :: q in given ==> q <= base)
    requires Exchanged(k, k', ifaces, dropped, base, services)
    requires ServicesNoted(built, base, services) && AllSingle(services)
    ensures Tight(k', ifaces, given + Above(base, base + |services|), ledger - dropped + Priorities(built))
  {
    NotedPriorities(built, base, services);
    SinglePlan(services, |services|);
    assert services[..|services|] == services;
  }

  lemma PrioritiesConcat(a: seq<ServiceFilter>, b: seq<ServiceFilter>)
    ensures Priorities(a + b) == Priorities(a) + Priorities(b)
  {
    assert forall f :: f in a + b <==> f in a || f in b;
  }

  lemma PrioritiesSubset(a: seq<ServiceFilter>, b: seq<ServiceFilter>)
    requires forall f :: f in a ==> f in b
    ensures Priorities(a) <= Priorities(b)
  {
  }

  lemma AscendingConcat(a: seq<ServiceFilter>, b: seq<ServiceFilter>, base: nat)
    requires Ascending(a) && Ascending(b)
    requires (forall p :: p in Priorities(a) ==> p <= base) && (forall p :: p in Priorities(b) ==> p > base)
    ensures Ascending(a + b)
  {
    forall j | 0 <= j < |a| ensures a[j].priority <= base {
      assert a[j].priority in Priorities(a);
    }
    forall j | 0 <= j < |b| ensures b[j].priority > base {
      assert b[j].priority in Priorities(b);
    }
  }

  // What every operation of a watcher leaves alone, and what it may have been given.
  ghost predicate Behaved(k: Kernel, k': Kernel, given: set<nat>, given': set<nat>, base: nat, last: nat) {
    && base <= last && Churned(k, k', given, base, Disrupted)
    && given <= given' <= given + Above(base, last)
  }

  lemma BehavedCounts(k: Kernel, k': Kernel, given: set<nat>, given': set<nat>, base: nat, last: nat)
    requires Behaved(k, k', given, given', base, last)
    ensures base <= last
  {
  }

  lemma BehavedTrans(k: Kernel, k1: Kernel, k2: Kernel, given: set<nat>, given1: set<nat>, given2: set<nat>,
                     base: nat, base1: nat, base2: nat)
    requires Behaved(k, k1, given, given1, base, base1) && Behaved(k1, k2, given1, given2, base1, base2)
    ensures Behaved(k, k2, given, given2, base, base2)
  {
    assert given1 <= given + (given1 - given);
    ChurnedSubset(k1, k2, given1, given + (given1 - given), base1);
    ChurnedTrans(k, k1, k2, given, given1 - given, base, base1, Disrupted);
  }

  lemma ChurnedSubset(k: Kernel, k': Kernel, small: set<nat>, big: set<nat>, base: nat)
    requires Churned(k, k', small, base, Disrupted) && small <= big
    ensures Churned(k, k', big, base, Disrupted)
  {
  }

  // The ledgers of a watcher name its live filters, each once.
  ghost predicate TightLedgers(k: Kernel, ifaces: seq<Iface>, given: set<nat>, pods: seq<ServiceFilter>,
                               services: seq<ServiceFilter>)
  {
    && Tight(k, ifaces, given, Priorities(pods) + Priorities(services))
    && Ascending(pods) && Ascending(services) && Priorities(pods) !! Priorities(services)
  }

  // One more batch on one of the two ledgers.
  lemma TightLedgersGrow(k: Kernel, k': Kernel, ifaces: seq<Iface>, given: set<nat>, mine: seq<ServiceFilter>,
                         other: seq<ServiceFilter>, base: nat, services: seq<Service>, built: seq<ServiceFilter>)
    requires TightLedgers(k, ifaces, given, mine, other) && (forall q :: q in given ==> q <= base)
    requires Installed(k, k', ifaces, base, ServicePlan(services), Disrupted)
    requires ServicesNoted(built, base, services) && AllSingle(services)
    ensures TightLedgers(k', ifaces, given + Above(base, base + |services|), mine + built, other)
  {
    hide Installed, ServicesNoted, ServicePlan, Tight, Priorities, Ascending;
    TightGiven(k, ifaces, given, Priorities(mine) + Priorities(other));
    TightAfterAdding(k, k', ifaces, given, Priorities(mine) + Priorities(other), base, services, built);
    NotedPriorities(built, base, services);
    PrioritiesConcat(mine, built);
    AscendingConcat(mine, built, base);
    assert Priorities(mine) + Priorities(other) + Priorities(built) == Priorities(mine + built) + Priorities(other);
  }

  lemma TightGiven(k: Kernel, ifaces: seq<Iface>, given: set<nat>, ledger: set<nat>)
    requires Tight(k, ifaces, given, ledger)
    ensures ledger <= given
  {
  }

  lemma TightLedgersShrink(k: Kernel, k': Kernel, ifaces: seq<Iface>, given: set<nat>, mine: seq<ServiceFilter>,
                           other: seq<ServiceFilter>, left: seq<ServiceFilter>)
    requires TightLedgers(k, ifaces, given, mine, other)
    requires Cleared(k, k', ifaces, Priorities(mine) - Priorities(left)) && Ascending(left)
    requires Priorities(left) <= Priorities(mine)
    ensures TightLedgers(k', ifaces, given, left, other)
  {
    TightAfterClearing(k, k', ifaces, given, Priorities(mine) + Priorities(other), Priorities(mine) - Priorities(left));
    assert Priorities(mine) + Priorities(other) - (Priorities(mine) - Priorities(left)) ==
      Priorities(left) + Priorities(other);
  }

  lemma TightLedgersExchange(k: Kernel, k': Kernel, ifaces: seq<Iface>, given: set<nat>, pods: seq<ServiceFilter>,
                             other: seq<ServiceFilter>, kept: seq<ServiceFilter>, base: nat, services: seq<Service>,
                             built: seq<ServiceFilter>)
    requires TightLedgers(k, ifaces, given, pods, other) && (forall q :: q in given ==> q <= base)
    requires Exchanged(k, k', ifaces, Priorities(pods) - Priorities(kept), base, services)
    requires ServicesNoted(built, base, services) && AllSingle(services)
    requires Ascending(kept) && Priorities(kept) <= Priorities(pods)
    ensures TightLedgers(k', ifaces, given + Above(base, base + |services|), kept + built, other)
  {
    hide Exchanged, ServicesNoted, ServicePlan, Tight, Priorities, Ascending;
    TightGiven(k, ifaces, given, Priorities(pods) + Priorities(other));
    TightAfterExchange(k, k', ifaces, given, Priorities(pods) + Priorities(other), Priorities(pods) - Priorities(kept),
      base, services, built);
    NotedPriorities(built, base, services);
    PrioritiesConcat(kept, built);
    AscendingConcat(kept, built, base);
    assert Priorities(pods) + Priorities(other) - (Priorities(pods) - Priorities(kept)) + Priorities(built)
        == Priorities(kept + built) + Priorities(other);
  }

  function PortsAfter(e: ServiceEvent, ports: seq<ServicePort>): seq<ServicePort> {
    if e.headless then ports + [ServicePort(0, 0, "")] else e.ports
  }

  // All the endpoints, or those of a share of the IPs, each as often as it is built.
  ghost predicate Thinned(all: seq<Service>, percentage: Option<int>, hash: Ip -> nat, desired: seq<Service>) {
    if percentage.Some? && 0 < percentage.value < 100 then
      exists chosen :: ShareOf(all, chosen, desired) && chosen <= IpsOf(all) &&
        (Selection.DistinctHashes(IpsOf(all), hash) ==> chosen == Selection.Share(IpsOf(all), hash, percentage.value))
    else desired == all
  }

  // The ledger lists the wanted endpoints, each as often as it is wanted.
  ghost predicate EndpointsHandled(all: seq<Service>, percentage: Option<int>, hash: Ip -> nat, after: seq<Service>) {
    exists desired :: Thinned(all, percentage, hash, desired) && multiset(after) == multiset(desired)
  }

  // The filters of the service itself.
  function OwnServices(e: ServiceEvent, ports: seq<ServicePort>): seq<Service> {
    if e.headless then [] else Built(e.clusterIp, ClusterPorts(ports))
  }

  ghost predicate ServicesHandled(e: ServiceEvent, ports: seq<ServicePort>, before: seq<Service>, after: seq<Service>) {
    var services := OwnServices(e, ports);
    match e.kind
    case Added => after == before + services
    case Modified => after == services
    case Deleted => multiset(after) == multiset(before) - multiset(services)
    case _ => after == before
  }

  function PodServices(e: PodEvent, ports: seq<ServicePort>): seq<Service> {
    Built(if e.ip.Some? then e.ip.value else "", TargetPorts(ports))
  }

  ghost predicate PodHandled(e: PodEvent, ports: seq<ServicePort>, before: seq<Service>, after: seq<Service>,
                             waiting: seq<string>, waiting': seq<string>)
  {
    var services := PodServices(e, ports);
    match e.kind
    case Added => services != [] &&
      if services[0] in before then after == before && waiting' == waiting
      else if e.ip.Some? then after == before + services && waiting' == waiting
      else after == before && waiting' == waiting + [e.name]
    case Modified => services != [] &&
      if e.ip.Some? && e.name in waiting then
        after == before + services && multiset(waiting') == multiset(waiting) - multiset{e.name}
      else after == before && waiting' == waiting
    case Deleted => services != [] && multiset(after) == multiset(before) - multiset(services) && waiting' == waiting
    case _ => after == before && waiting' == waiting
  }

  // Events that are not handled whatever the state of the table.
  predicate ServiceBroken(e: ServiceEvent) {
    e.kind == Error || (e.kind != Bookmark && e.watched && e.pods.None?)
  }

  predicate PodBroken(e: PodEvent, ports: seq<ServicePort>) {
    e.kind == Error || (e.kind != Bookmark && PodServices(e, ports) == [])
  }

  // Whether the priorities last for the filters an event asks for.
  ghost predicate ServiceFits(e: ServiceEvent, ports: seq<ServicePort>, fromPods: seq<ServiceFilter>, last: nat,
                              desired: seq<Service>)
  {
    e.kind == Bookmark || !e.watched ||
    (Room(last, Lacking(fromPods, desired)) &&
     (e.kind == Deleted || Room(last + Lacking(fromPods, desired), |OwnServices(e, ports)|)))
  }

  predicate PodFits(e: PodEvent, ports: seq<ServicePort>, fromPods: seq<ServiceFilter>, waiting: seq<string>,
                    last: nat)
  {
    var services := PodServices(e, ports);
    match e.kind
    case Added => services == [] || services[0] in Services(fromPods) || e.ip.None? || Room(last, |services|)
    case Modified => e.ip.None? || e.name !in waiting || Room(last, |services|)
    case _ => true
  }

  // Whether an event deletes the service's ledger from itself.
  predicate ServicePurges(e: ServiceEvent) {
    ServiceBroken(e) || (e.kind == Modified && e.watched)
  }

  // Deleting a ledger from itself is safe when it lists at most two filters; without repeated services only then.
  ghost predicate PurgeVerdict(purges: bool, ledger: seq<ServiceFilter>, ifaces: seq<Iface>, tight: bool) {
    && ((purges ==> |ledger| <= 2) ==> tight)
    && (DistinctServices(ledger) && ifaces != [] && tight ==> (purges ==> |ledger| <= 2))
  }

  // Some filter that was asked for is in the kernel and on no ledger.
  ghost predicate Leaky(k: Kernel, ifaces: seq<Iface>, given: set<nat>, pods: seq<ServiceFilter>,
                        services: seq<ServiceFilter>)
  {
    exists q, i :: q in given && i in ifaces && Lookup(k, i, q).Some? && q !in Priorities(pods) + Priorities(services)
  }

  lemma LeakyIsNotTight(k: Kernel, ifaces: seq<Iface>, given: set<nat>, pods: seq<ServiceFilter>,
                        services: seq<ServiceFilter>)
    requires Leaky(k, ifaces, given, pods, services)
    ensures !TightLedgers(k, ifaces, given, pods, services)
  {
  }

  lemma LeakStays(k: Kernel, k': Kernel, ifaces: seq<Iface>, given: set<nat>, pods: seq<ServiceFilter>,
                  was: seq<ServiceFilter>, gone: set<nat>)
    requires Leaky(k, ifaces, given, pods, was) && Cleared(k, k', ifaces, gone) && gone <= Priorities(was)
    ensures Leaky(k', ifaces, given, pods, [])
  {
    var q, i :| q in given && i in ifaces && Lookup(k, i, q).Some? && q !in Priorities(pods) + Priorities(was);
    assert Lookup(k', i, q) == Lookup(k, i, q);
  }

  lemma LeakSwap(k: Kernel, ifaces: seq<Iface>, given: set<nat>, pods: seq<ServiceFilter>, services: seq<ServiceFilter>)
    requires Leaky(k, ifaces, given, pods, services)
    ensures Leaky(k, ifaces, given, services, pods)
  {
    assert Priorities(pods) + Priorities(services) == Priorities(services) + Priorities(pods);
  }

  // What is known of the ledgers after a batch ran out of priorities.
  ghost predicate StarvedAt(k: Kernel, ifaces: seq<Iface>, given: set<nat>, pods: seq<ServiceFilter>,
                            services: seq<ServiceFilter>, clean: bool)
  {
    && (clean ==> TightLedgers(k, ifaces, given, pods, services))
    && (!clean && ifaces != [] ==> Leaky(k, ifaces, given, pods, services))
  }

  ghost predicate UpdateStarvedAt(k: Kernel, ifaces: seq<Iface>, given: set<nat>, pods: seq<ServiceFilter>,
                                  services: seq<ServiceFilter>, kind: EventType, was: seq<ServiceFilter>, base: nat)
  {
    && Deletable([], k, ifaces, services)
    && if kind != Modified then services == was && StarvedAt(k, ifaces, given, pods, services, !Room(base, 1))
       else
         && services == []
         && if Room(base, 1) then ifaces != [] ==> Leaky(k, ifaces, given, pods, services)
            else PurgeVerdict(true, was, ifaces, TightLedgers(k, ifaces, given, pods, services))
  }

  ghost predicate HandleStarvedAt(k: Kernel, ifaces: seq<Iface>, given: set<nat>, pods: seq<ServiceFilter>,
                                  services: seq<ServiceFilter>, kind: EventType, had: seq<ServiceFilter>,
                                  was: seq<ServiceFilter>, base: nat, desired: seq<Service>)
  {
    var lack := Lacking(had, desired);
    if Room(base, lack) then UpdateStarvedAt(k, ifaces, given, pods, services, kind, was, base + lack)
    else
      && services == was && Deletable([], k, ifaces, services)
      && StarvedAt(k, ifaces, given, pods, services, lack == |desired| && !Room(base, 1))
  }

  lemma HandleDeletable(k: Kernel, ifaces: seq<Iface>, given: set<nat>, pods: seq<ServiceFilter>,
                        services: seq<ServiceFilter>, kind: EventType, had: seq<ServiceFilter>,
                        was: seq<ServiceFilter>, base: nat, desired: seq<Service>)
    requires HandleStarvedAt(k, ifaces, given, pods, services, kind, had, was, base, desired)
    ensures Deletable([], k, ifaces, services)
  {
  }

  // After such an event the service's ledger is purged, if it is still there.
  lemma StarvedPurged(k: Kernel, k': Kernel, ifaces: seq<Iface>, given: set<nat>, pods: seq<ServiceFilter>,
                      services: seq<ServiceFilter>, gone: set<nat>, last: nat, kind: EventType,
                      had: seq<ServiceFilter>, was: seq<ServiceFilter>, base: nat, desired: seq<Service>)
    requires HandleStarvedAt(k, ifaces, given, pods, services, kind, had, was, base, desired)
    requires (forall q :: q in given ==> q <= last) && forall i, q: nat :: Lookup(k', i, q).Some? ==> q <= last
    requires Cleared(k, k', ifaces, gone) && gone <= Priorities(services)
    requires |services| <= 2 ==> gone == Priorities(services)
    requires DistinctServices(services) && Ascending(services) ==>
      forall j :: 0 <= j < |services| ==> (services[j].priority in gone <==> !Survives(j, |services|))
    ensures var tight := TightLedgers(k', ifaces, given, pods, []);
      if CleanStop(had, base, desired) then PurgeVerdict(true, was, ifaces, tight) else ifaces != [] ==> !tight
  {
    hide Ascending, DistinctServices, Survives, Deletable, Lacking, Room, TightLedgers, Leaky, PurgeVerdict, Cleared;
    AscendingNone();
    if kind == Modified && Room(base, Lacking(had, desired)) {
      SameKernel(k, k', ifaces, given, pods, gone);
      if ifaces != [] && !CleanStop(had, base, desired) {
        LeakStays(k, k', ifaces, given, pods, services, gone);
        LeakyIsNotTight(k', ifaces, given, pods, []);
      }
    } else if CleanStop(had, base, desired) {
      TightPurged(k, k', ifaces, given, pods, services, gone, last);
    } else if ifaces != [] {
      LeakStays(k, k', ifaces, given, pods, services, gone);
      LeakyIsNotTight(k', ifaces, given, pods, []);
    }
  }

  // The ledger of the pods is purged after an event that could not be handled.
  lemma PodsPurged(k: Kernel, k': Kernel, ifaces: seq<Iface>, given: set<nat>, was: seq<ServiceFilter>,
                   services: seq<ServiceFilter>, gone: set<nat>, last: nat, clean: bool)
    requires StarvedAt(k, ifaces, given, was, services, clean)
    requires (forall q :: q in given ==> q <= last) && forall i, q: nat :: Lookup(k', i, q).Some? ==> q <= last
    requires Cleared(k, k', ifaces, gone) && gone <= Priorities(was)
    requires |was| <= 2 ==> gone == Priorities(was)
    requires DistinctServices(was) && Ascending(was) ==>
      forall j :: 0 <= j < |was| ==> (was[j].priority in gone <==> !Survives(j, |was|))
    ensures if clean then PurgeVerdict(true, was, ifaces, TightLedgers(k', ifaces, given, [], services))
            else ifaces != [] ==> !TightLedgers(k', ifaces, given, [], services)
  {
    hide Ascending, DistinctServices, Survives, TightLedgers, Leaky, PurgeVerdict, Cleared, Priorities;
    if clean {
      TightSwap(k, ifaces, given, was, services);
      TightPurged(k, k', ifaces, given, services, was, gone, last);
      TightSwapped(k', ifaces, given, services, []);
    } else if ifaces != [] {
      LeakSwap(k, ifaces, given, was, services);
      LeakStays(k, k', ifaces, given, services, was, gone);
      LeakSwap(k', ifaces, given, services, []);
      LeakyIsNotTight(k', ifaces, given, [], services);
    }
  }

  lemma SameKernel(k: Kernel, k': Kernel, ifaces: seq<Iface>, given: set<nat>, pods: seq<ServiceFilter>, gone: set<nat>)
    requires Cleared(k, k', ifaces, gone) && gone <= {}
    ensures TightLedgers(k, ifaces, given, pods, []) <==> TightLedgers(k', ifaces, given, pods, [])
  {
  }

  // A batch fails for lack of priorities after all but `kept` of a ledger was dropped, and the ledger is left as `now`,
  // which is what it was or nothing: the ledgers are tight exactly when nothing unlisted is left.
  lemma TightFoundered(k: Kernel, k': Kernel, ifaces: seq<Iface>, given: set<nat>, mine: seq<ServiceFilter>,
                       other: seq<ServiceFilter>, kept: seq<ServiceFilter>, now: seq<ServiceFilter>, base: nat,
                       last: nat)
    requires TightLedgers(k, ifaces, given, mine, other) && (forall q :: q in given ==> q <= base) && base <= last
    requires Foundered(k, k', ifaces, Priorities(mine) - Priorities(kept), base)
    requires Priorities(kept) <= Priorities(mine) && (now == [] || now == kept == mine)
    requires forall i, q: nat :: Lookup(k', i, q).Some? ==> q <= last
    ensures !Room(base, 1) && (now == kept || kept == []) ==>
      TightLedgers(k', ifaces, given + Above(base, last), now, other)
    ensures ifaces != [] && !(!Room(base, 1) && (now == kept || kept == [])) ==>
      Leaky(k', ifaces, given + Above(base, last), now, other)
    ensures Distinct(ifaces) ==> Deletable([], k', ifaces, other) && (now == kept ==> Deletable([], k', ifaces, now))
  {
    if ifaces != [] {
      if Room(base, 1) {
        var i, q: nat :| i in ifaces && q > base && Lookup(k', i, q).Some?;
        assert q in Above(base, last) && q !in Priorities(now) + Priorities(other);
      } else if now != kept && kept != [] {
        var q := kept[0].priority;
        assert kept[0] in kept && q in Priorities(kept) && ifaces[0] in ifaces;
        assert Lookup(k', ifaces[0], q) == Lookup(k, ifaces[0], q);
      }
    }
  }

  class Watcher {
    const tc: Tc
    const ifaces: seq<Iface>
    const percentage: Option<int>
    const hash: Ip -> nat
    var ports: seq<ServicePort>
    var fromPods: seq<ServiceFilter>       // tcFiltersFromPodEndpoints
    var fromServices: seq<ServiceFilter>   // tcFiltersFromNamespaceServices
    var podsWithoutIps: seq<string>
    ghost var given: set<nat>              // every priority asked for

    ghost predicate Valid()
      reads this, tc
    {
      tc.Valid() && (!tc.wrapped ==>
        && (forall p :: p in given ==> p <= tc.last)
        && Priorities(fromPods) <= given && Priorities(fromServices) <= given)
    }

    // The watcher may delete every filter it asked for, and every command of its turn is on record as an allowed one.
    ghost predicate Entitled()
      reads this, tc, tc.turn
    {
      tc.Logged() && (!tc.wrapped ==> tc.turn.Permits(given))
    }

    ghost predicate IsTight()
      reads this, tc
    {
      TightLedgers(tc.kernel, ifaces, given, fromPods, fromServices)
    }

    // Nothing but a lack of priorities can make a tc command fail.
    ghost predicate Quiet()
      reads this, tc
    {
      tc.script == [] && Distinct(ifaces) && IsTight()
    }

    ghost predicate Leaks()
      reads this, tc
    {
      Leaky(tc.kernel, ifaces, given, fromPods, fromServices)
    }

    // What is known of the ledgers after a batch ran out of priorities.
    ghost predicate Starved(clean: bool)
      reads this, tc
    {
      StarvedAt(tc.kernel, ifaces, given, fromPods, fromServices, clean)
    }

    // The same after a whole event.
    ghost predicate HandleStarved(e: ServiceEvent, pods: seq<ServiceFilter>, was: seq<ServiceFilter>, base: nat,
                                  desired: seq<Service>)
      reads this, tc
    {
      HandleStarvedAt(tc.kernel, ifaces, given, fromPods, fromServices, e.kind, pods, was, base, desired)
    }

    // The same after the update of the service's own filters, of which a modified service has lost the ledger.
    ghost predicate UpdateStarved(kind: EventType, was: seq<ServiceFilter>, base: nat)
      reads this, tc
    {
      UpdateStarvedAt(tc.kernel, ifaces, given, fromPods, fromServices, kind, was, base)
    }

    constructor (tc: Tc, ifaces: seq<Iface>, percentage: Option<int>, hash: Ip -> nat, ports: seq<ServicePort>)
      requires tc.Valid()
      ensures this.tc == tc && this.ifaces == ifaces && this.hash == hash && Valid() && given == {} && IsTight()
      ensures this.percentage == percentage && this.ports == ports && fromPods == fromServices == []
      ensures podsWithoutIps == []
    {
      this.tc, this.ifaces, this.percentage, this.hash, this.ports := tc, ifaces, percentage, hash, ports;
      fromPods, fromServices, podsWithoutIps, given := [], [], [], {};
    }

    // addServiceFilters, with the priorities it was given put on record.
    method Add(services: seq<Service>) returns (ok: bool, built: seq<ServiceFilter>)
      requires Valid() && Entitled()
      modifies this`given, tc
      ensures Valid() && Entitled() && (old(tc.wrapped) ==> tc.wrapped)
      ensures !tc.wrapped ==> Behaved(old(tc.kernel), tc.kernel, old(given), given, old(tc.last), tc.last)
      ensures !tc.wrapped ==> Priorities(built) <= given
      ensures !ok ==> built == []
      ensures !tc.wrapped && ok ==>
        && Installed(old(tc.kernel), tc.kernel, ifaces, old(tc.last), ServicePlan(services), Disrupted)
        && ServicesNoted(built, old(tc.last), services)
      ensures !tc.wrapped && ok && AllSingle(services) ==>
        given == old(given) + Above(old(tc.last), old(tc.last) + |services|)
      ensures old(tc.script) == [] ==> tc.script == []
      ensures Counted(old(tc.wrapped), old(tc.last), tc.wrapped, tc.last, if ok then 0 else 1)
      ensures !tc.wrapped && AllSingle(services) ==>
        && (old(tc.script) == [] ==> (ok <==> Room(old(tc.last), |services|)))
        && (ok ==> tc.last == old(tc.last) + |services|)
      ensures !tc.wrapped && old(tc.script) == [] && !ok ==>
        && Foundered(old(tc.kernel), tc.kernel, ifaces, {}, old(tc.last))
        && given == old(given) + Above(old(tc.last), tc.last)
    {
      hide Foundered, Stranded, Cleared, Installed, ServicesNoted, Counted, Room, Churned, Tc.Valid, Tc.Logged,
        Turn.Permits, Above, Priorities, Lookup, ServicePlan, SingleProtocol;
      tc.Bounded();
      tc.LoggedCount();
      AscendingNone();
      ghost var none: set<nat> := {};
      ClearedNothing(tc.kernel, ifaces, none);
      assert none - none == none;
      ok, built := AddServiceFilters(tc, ifaces, services);
      given := given + Above(old(tc.last), tc.last);
      if !tc.wrapped {
        tc.turn.PermitsMore(old(given), given, old(tc.last));
        if old(tc.script) == [] && !ok {
          FounderedNow(old(tc.kernel), old(tc.kernel), tc.kernel, ifaces, none, old(tc.last));
        }
        ChurnedSubset(old(tc.kernel), tc.kernel, {}, old(given), old(tc.last));
        if ok {
          NotedGiven(built, old(tc.last), services);
        }
        if AllSingle(services) {
          SinglePlan(services, |services|);
          assert services[..|services|] == services;
        }
      }
    }

    // The endpoints of the service have become the wanted ones.
    method SetEndpoints(desired: seq<Service>) returns (ok: bool)
      requires Valid() && Entitled()
      modifies this`given, this`fromPods, tc
      ensures Valid() && Entitled() && (old(tc.wrapped) ==> tc.wrapped)
      ensures !tc.wrapped ==> Behaved(old(tc.kernel), tc.kernel, old(given), given, old(tc.last), tc.last)
      ensures !tc.wrapped && ok ==> multiset(Services(fromPods)) == multiset(desired)
      ensures !tc.wrapped && ok && old(IsTight()) && AllSingle(desired) ==> IsTight()
      ensures old(tc.script) == [] ==> tc.script == []
      ensures Counted(old(tc.wrapped), old(tc.last), tc.wrapped, tc.last, if ok then 0 else 1)
      ensures !tc.wrapped && AllSingle(desired) ==>
        && (old(Quiet()) ==> (ok <==> Room(old(tc.last), Lacking(old(fromPods), desired))))
        && (ok ==> tc.last == old(tc.last) + Lacking(old(fromPods), desired))
      ensures !tc.wrapped && AllSingle(desired) && old(Quiet()) && !ok ==>
        && Starved(Lacking(old(fromPods), desired) == |desired| && !Room(old(tc.last), 1))
        && Deletable([], tc.kernel, ifaces, fromServices)
    {
      hide Deletable, Lacking, Counted, Room, Churned, Exchanged, ServicePlan, ServicesNoted, TightLedgers, Ascending,
        AllSingle, Priorities, Services, Lookup;
      var before := fromPods;
      var kept, added;
      if Quiet() {
        TightDeletable(tc.kernel, ifaces, given, fromPods, fromServices);
      }
      ok, fromPods, kept, added := ExchangeEndpoints(tc, ifaces, before, desired);
      given := given + Above(old(tc.last), tc.last);
      AscendingNone();
      PrioritiesSubset(kept, before);
      if !tc.wrapped && old(Quiet()) && !ok {
        tc.Bounded();
        TightFoundered(old(tc.kernel), tc.kernel, ifaces, old(given), before, fromServices, kept, [], old(tc.last),
          tc.last);
      }
      if !tc.wrapped {
        ChurnedSubset(old(tc.kernel), tc.kernel, Priorities(before), old(given), old(tc.last));
        if ok {
          NotedGiven(added, old(tc.last), Services(added));
          PrioritiesConcat(kept, added);
          if AllSingle(desired) {
            AddedAreDesired(kept, added, desired);
            SinglePlan(Services(added), |Services(added)|);
            assert Services(added)[..|Services(added)|] == Services(added);
            if old(IsTight()) {
              TightParts(old(tc.kernel), ifaces, old(given), before, fromServices);
              TightLedgersExchange(old(tc.kernel), tc.kernel, ifaces, old(given), before, fromServices, kept,
                old(tc.last), Services(added), added);
            }
          }
        }
      }
    }

    // More filters for the service itself, or for its pods.
    method AppendServices(services: seq<Service>) returns (ok: bool)
      requires Valid() && Entitled()
      modifies this`given, this`fromServices, tc
      ensures Valid() && Entitled() && (old(tc.wrapped) ==> tc.wrapped)
      ensures !tc.wrapped ==> Behaved(old(tc.kernel), tc.kernel, old(given), given, old(tc.last), tc.last)
      ensures ok && !tc.wrapped ==> Services(fromServices) == Services(old(fromServices)) + services
      ensures !tc.wrapped && ok && old(IsTight()) && AllSingle(services) ==> IsTight()
      ensures old(tc.script) == [] ==> tc.script == []
      ensures Counted(old(tc.wrapped), old(tc.last), tc.wrapped, tc.last, if ok then 0 else 1)
      ensures !tc.wrapped && AllSingle(services) && old(tc.script) == [] ==> (ok <==> Room(old(tc.last), |services|))
      ensures !tc.wrapped && old(Quiet()) && !ok ==>
        && Starved(!Room(old(tc.last), 1)) && fromServices == old(fromServices)
        && Deletable([], tc.kernel, ifaces, fromServices)
    {
      hide Counted, Room, Installed, ServicePlan, ServicesNoted, TightLedgers, Behaved, Above, Foundered, Deletable,
        Leaky, Priorities;
      var built;
      ok, built := Add(services);
      if !tc.wrapped && old(Quiet()) && !ok {
        tc.Bounded();
        TightSwap(old(tc.kernel), ifaces, old(given), fromPods, fromServices);
        BehavedCounts(old(tc.kernel), tc.kernel, old(given), given, old(tc.last), tc.last);
        assert Priorities(fromServices) - Priorities(fromServices) == {};
        TightFoundered(old(tc.kernel), tc.kernel, ifaces, old(given), fromServices, fromPods, fromServices,
          fromServices, old(tc.last), tc.last);
        SwapBack(tc.kernel, ifaces, given, fromServices, fromPods);
      }
      PrioritiesConcat(fromServices, built);
      ServicesConcat(fromServices, built);
      if ok && !tc.wrapped {
        NotedServices(built, old(tc.last), services);
        if old(IsTight()) && AllSingle(services) {
          TightSwap(old(tc.kernel), ifaces, old(given), fromPods, fromServices);
          TightLedgersGrow(old(tc.kernel), tc.kernel, ifaces, old(given), fromServices, fromPods, old(tc.last),
            services, built);
          TightSwap(tc.kernel, ifaces, given, fromServices + built, fromPods);
        }
      }
      if ok {
        fromServices := fromServices + built;
      }
    }

    method AppendPods(services: seq<Service>) returns (ok: bool)
      requires Valid() && Entitled()
      modifies this`given, this`fromPods, tc
      ensures Valid() && Entitled() && (old(tc.wrapped) ==> tc.wrapped)
      ensures !tc.wrapped ==> Behaved(old(tc.kernel), tc.kernel, old(given), given, old(tc.last), tc.last)
      ensures ok && !tc.wrapped ==> Services(fromPods) == Services(old(fromPods)) + services
      ensures !tc.wrapped && ok && old(IsTight()) && AllSingle(services) ==> IsTight()
      ensures old(tc.script) == [] ==> tc.script == []
      ensures Counted(old(tc.wrapped), old(tc.last), tc.wrapped, tc.last, if ok then 0 else 1)
      ensures !tc.wrapped && AllSingle(services) && old(tc.script) == [] ==> (ok <==> Room(old(tc.last), |services|))
      ensures !tc.wrapped && old(Quiet()) && !ok ==>
        && Starved(!Room(old(tc.last), 1)) && fromPods == old(fromPods)
        && Deletable([], tc.kernel, ifaces, fromPods)
    {
      hide Counted, Room, Installed, ServicePlan, ServicesNoted, TightLedgers, Behaved, Above, Foundered, Deletable,
        Leaky, Priorities;
      var built;
      ok, built := Add(services);
      if !tc.wrapped && old(Quiet()) && !ok {
        tc.Bounded();
        BehavedCounts(old(tc.kernel), tc.kernel, old(given), given, old(tc.last), tc.last);
        assert Priorities(fromPods) - Priorities(fromPods) == {};
        TightFoundered(old(tc.kernel), tc.kernel, ifaces, old(given), fromPods, fromServices, fromPods, fromPods,
          old(tc.last), tc.last);
      }
      PrioritiesConcat(fromPods, built);
      ServicesConcat(fromPods, built);
      if ok && !tc.wrapped {
        NotedServices(built, old(tc.last), services);
        if old(IsTight()) && AllSingle(services) {
          TightLedgersGrow(old(tc.kernel), tc.kernel, ifaces, old(given), fromPods, fromServices, old(tc.last),
            services, built);
        }
      }
      if ok {
        fromPods := fromPods + built;
      }
    }

    // The filters of services that are gone are deleted; after a failure the whole ledger is lost.
    method DropServices(services: seq<Service>) returns (ok: bool)
      requires Valid() && Entitled()
      modifies this`fromServices, tc`kernel, tc`script, tc`record
      ensures Valid() && Entitled()
      ensures !tc.wrapped ==> Behaved(old(tc.kernel), tc.kernel, given, given, tc.last, tc.last)
      ensures ok ==> multiset(Services(fromServices)) == multiset(Services(old(fromServices))) - multiset(services)
      ensures ok && old(IsTight()) ==> IsTight()
      ensures old(tc.script) == [] ==> tc.script == []
      ensures old(Quiet()) ==> ok
    {
      if Quiet() {
        TightDeletable(tc.kernel, ifaces, given, fromPods, fromServices);
      }
      hide Deletable, Cleared, OnlyCleared, Churned, Ascending, TightLedgers, Priorities, Services;
      var left;
      ok, left := RemoveServices(tc, ifaces, fromServices, services);
      PrioritiesSubset(left, fromServices);
      if !tc.wrapped {
        ClearedIsChurned(old(tc.kernel), tc.kernel, Priorities(fromServices), given, tc.last, Disrupted);
      }
      if ok && old(IsTight()) {
        TightParts(old(tc.kernel), ifaces, given, fromPods, fromServices);
        TightSwap(old(tc.kernel), ifaces, given, fromPods, fromServices);
        TightLedgersShrink(old(tc.kernel), tc.kernel, ifaces, given, fromServices, fromPods, left);
        TightSwap(tc.kernel, ifaces, given, left, fromPods);
      }
      fromServices := left;
    }

    method DropPods(services: seq<Service>) returns (ok: bool)
      requires Valid() && Entitled()
      modifies this`fromPods, tc`kernel, tc`script, tc`record
      ensures Valid() && Entitled()
      ensures !tc.wrapped ==> Behaved(old(tc.kernel), tc.kernel, given, given, tc.last, tc.last)
      ensures ok ==> multiset(Services(fromPods)) == multiset(Services(old(fromPods))) - multiset(services)
      ensures ok && old(IsTight()) ==> IsTight()
      ensures old(tc.script) == [] ==> tc.script == []
      ensures old(Quiet()) ==> ok
    {
      if Quiet() {
        TightDeletable(tc.kernel, ifaces, given, fromPods, fromServices);
      }
      hide Deletable, Cleared, OnlyCleared, Churned, Ascending, TightLedgers, Priorities, Services;
      var left;
      ok, left := RemoveServices(tc, ifaces, fromPods, services);
      PrioritiesSubset(left, fromPods);
      if !tc.wrapped {
        ClearedIsChurned(old(tc.kernel), tc.kernel, Priorities(fromPods), given, tc.last, Disrupted);
      }
      if ok && old(IsTight()) {
        TightParts(old(tc.kernel), ifaces, given, fromPods, fromServices);
        TightLedgersShrink(old(tc.kernel), tc.kernel, ifaces, given, fromPods, fromServices, left);
      }
      fromPods := left;
    }

    // Deletion of a ledger from itself; what is left in the slice afterwards is what the shifts made of it.
    method Purge(list: seq<ServiceFilter>) returns (ok: bool, scrambled: seq<ServiceFilter>, gone: set<nat>)
      requires Valid() && Entitled() && (!tc.wrapped ==> Priorities(list) <= given)
      modifies tc`kernel, tc`script, tc`record
      ensures Valid() && Entitled()
      ensures !tc.wrapped ==> Behaved(old(tc.kernel), tc.kernel, given, given, tc.last, tc.last)
      ensures Priorities(scrambled) <= Priorities(list) && gone <= Priorities(list)
      ensures ok ==> Cleared(old(tc.kernel), tc.kernel, ifaces, gone)
      ensures ok && DistinctServices(list) && Ascending(list) ==>
        forall j :: 0 <= j < |list| ==> (list[j].priority in gone <==> !Survives(j, |list|))
      ensures ok && |list| <= 2 ==> gone == Priorities(list)
      ensures old(tc.script) == [] ==> tc.script == []
      ensures old(Deletable(tc.script, tc.kernel, ifaces, list)) ==> ok
    {
      hide Cleared, OnlyCleared, Churned, Ascending, DistinctServices, Survives;
      var a := new ServiceFilter[|list|](j requires 0 <= j < |list| => list[j]);
      assert a[..] == list;
      ok, gone := RemoveFromItself(tc, ifaces, a);
      scrambled := a[..];
      if !tc.wrapped {
        ClearedIsChurned(old(tc.kernel), tc.kernel, Priorities(list), given, tc.last, Disrupted);
      }
    }

    // A modified service: the old filters are deleted and new ones added. The ledgers stay tight exactly
    // when there were at most two old filters.
    method ReplaceServices(services: seq<Service>) returns (ok: bool)
      requires Valid() && Entitled()
      modifies this`given, this`fromServices, tc
      ensures Valid() && Entitled() && (old(tc.wrapped) ==> tc.wrapped)
      ensures !tc.wrapped ==> Behaved(old(tc.kernel), tc.kernel, old(given), given, old(tc.last), tc.last)
      ensures ok && !tc.wrapped ==> Services(fromServices) == services
      ensures !tc.wrapped && ok && old(IsTight()) && AllSingle(services) ==>
        PurgeVerdict(true, old(fromServices), ifaces, IsTight())
      ensures old(tc.script) == [] ==> tc.script == []
      ensures Counted(old(tc.wrapped), old(tc.last), tc.wrapped, tc.last, if ok then 0 else 1)
      ensures !tc.wrapped && AllSingle(services) && old(Quiet()) ==> (ok <==> Room(old(tc.last), |services|))
      ensures !tc.wrapped && old(Quiet()) && !ok ==> UpdateStarved(Modified, old(fromServices), old(tc.last))
    {
      hide Foundered, Leaky, Deletable, PurgeVerdict, Counted, Room, Installed, ServicePlan, ServicesNoted,
        TightLedgers, Behaved, Above, Cleared, Priorities, DistinctServices, Survives, Services;
      var was := fromServices;
      var gone;
      CountedNothing(tc.wrapped, tc.last);
      if Quiet() {
        TightDeletable(tc.kernel, ifaces, given, fromPods, fromServices);
      }
      ok, fromServices, gone := Purge(was);
      if !ok {
        return;
      }
      ghost var k := tc.kernel;
      var built;
      if !tc.wrapped && old(Quiet()) {
        tc.Bounded();
        TightPurged(old(tc.kernel), k, ifaces, given, fromPods, was, gone, tc.last);
      }
      ok, built := Add(services);
      fromServices := built;
      if !tc.wrapped && old(Quiet()) && !ok {
        tc.Bounded();
        FounderedVerdict(k, tc.kernel, ifaces, old(given), fromPods, old(tc.last), tc.last);
        NoneDeletable(tc.kernel, ifaces);
      }
      if !tc.wrapped {
        BehavedTrans(old(tc.kernel), k, tc.kernel, old(given), old(given), given, old(tc.last), old(tc.last), tc.last);
        if ok {
          NotedServices(built, old(tc.last), services);
          if old(IsTight()) && AllSingle(services) {
            TightParts(old(tc.kernel), ifaces, old(given), fromPods, was);
            TightReplaced(old(tc.kernel), k, tc.kernel, ifaces, old(given), fromPods, was, gone, old(tc.last),
              services, built);
          }
        }
      }
    }

    // The endpoints wanted after a service event: those of its pods, possibly thinned to a percentage.
    method WantedEndpoints(pods: seq<Option<Ip>>) returns (desired: seq<Service>)
      ensures Thinned(AllBuilt(pods, TargetPorts(ports)), percentage, hash, desired)
      ensures AllPortsSingle(ports) ==> AllSingle(desired)
    {
      hide SingleProtocol, AllPortsSingle, AllBuilt, Selection.Share, Selection.DistinctHashes;
      desired := DesiredServices(pods, TargetPorts(ports));
      if percentage.Some? && 0 < percentage.value < 100 {
        ghost var chosen;
        var all := desired;
        desired, chosen := SelectServices(all, percentage.value, hash);
        ShareMembers(all, chosen, desired);
      }
      if AllPortsSingle(ports) {
        TargetsSingle(ports, desired);
      }
    }

    // The filters of the service itself, by kind of event.
    method UpdateServices(e: ServiceEvent) returns (ok: bool)
      requires Valid() && Entitled() && e.kind in {Added, Modified, Deleted}
      modifies this`given, this`fromServices, tc
      ensures Valid() && Entitled() && (old(tc.wrapped) ==> tc.wrapped)
      ensures !tc.wrapped ==> Behaved(old(tc.kernel), tc.kernel, old(given), given, old(tc.last), tc.last)
      ensures ok && !tc.wrapped && old(IsTight()) && AllPortsSingle(ports) ==>
        PurgeVerdict(e.kind == Modified, old(fromServices), ifaces, IsTight())
      ensures ok && !tc.wrapped ==> ServicesHandled(e, ports, Services(old(fromServices)), Services(fromServices))
      ensures old(tc.script) == [] ==> tc.script == []
      ensures Counted(old(tc.wrapped), old(tc.last), tc.wrapped, tc.last, if ok then 0 else 1)
      ensures !tc.wrapped && old(Quiet()) && AllPortsSingle(ports) ==>
        (ok <==> e.kind == Deleted || Room(old(tc.last), |OwnServices(e, ports)|))
      ensures !tc.wrapped && old(Quiet()) && !ok ==> UpdateStarved(e.kind, old(fromServices), old(tc.last))
    {
      CountedNothing(tc.wrapped, tc.last);
      hide UpdateStarved, Starved, Leaks, Deletable, Counted, Room, Quiet, Behaved, TightLedgers, Services,
        SingleProtocol, AllPortsSingle, Priorities, DistinctServices, Built, PurgeVerdict, ClusterPorts, Entitled;
      var services := [];
      if !e.headless {
        services := BuildServices(e.clusterIp, ClusterPorts(ports));
      }
      if AllPortsSingle(ports) {
        ClustersSingle(ports, services);
      }
      QuietParts();
      match e.kind
      case Added =>
        ok := AppendServices(services);
        if !tc.wrapped && old(Quiet()) && !ok {
          StarvedUpdate(Added, old(fromServices), old(tc.last));
        }
      case Modified => ok := ReplaceServices(services);
      case Deleted => ok := DropServices(services);
      NothingPurged(old(fromServices), ifaces, IsTight());
    }

    lemma StarvedUpdate(kind: EventType, was: seq<ServiceFilter>, base: nat)
      requires kind != Modified && fromServices == was && Starved(!Room(base, 1))
      requires Deletable([], tc.kernel, ifaces, fromServices)
      ensures UpdateStarved(kind, was, base)
    {
    }

    lemma QuietParts()
      ensures Quiet() ==> tc.script == [] && Distinct(ifaces) && IsTight()
    {
    }

    lemma QuietAgain()
      requires Distinct(ifaces) && tc.script == [] && IsTight()
      ensures Quiet()
    {
    }

    // handleKubernetesServiceChanges; false stands for an error. The ghost result is the endpoints it wanted.
    method HandleService(e: ServiceEvent) returns (ok: bool, ghost desired: seq<Service>)
      requires Valid() && Entitled()
      modifies this, tc
      ensures Valid() && Entitled() && (old(tc.wrapped) ==> tc.wrapped)
      ensures !tc.wrapped ==> Behaved(old(tc.kernel), tc.kernel, old(given), given, old(tc.last), tc.last)
      ensures ok && !tc.wrapped && old(IsTight()) && AllPortsSingle(PortsAfter(e, old(ports))) ==>
        PurgeVerdict(ServicePurges(e), old(fromServices), ifaces, IsTight())
      ensures ok && (e.kind == Bookmark || !e.watched) ==>
        ports == old(ports) && fromPods == old(fromPods) && fromServices == old(fromServices)
      ensures ok && !tc.wrapped && e.kind != Bookmark && e.watched ==>
        && e.pods.Some? && ports == PortsAfter(e, old(ports))
        && EndpointsHandled(AllBuilt(e.pods.value, TargetPorts(ports)), percentage, hash, Services(fromPods))
        && ServicesHandled(e, ports, Services(old(fromServices)), Services(fromServices))
      ensures old(tc.script) == [] ==> tc.script == []
      ensures Counted(old(tc.wrapped), old(tc.last), tc.wrapped, tc.last, if ok then 0 else 1)
      ensures Wants(e, old(ports), percentage, hash, desired)
      ensures ServiceBroken(e) ==> !ok && unchanged(tc, `given, `fromPods, `fromServices)
      ensures !tc.wrapped && old(Quiet()) && AllPortsSingle(PortsAfter(e, old(ports))) ==>
        (ok <==> !ServiceBroken(e) && ServiceFits(e, PortsAfter(e, old(ports)), old(fromPods), old(tc.last), desired))
      ensures !tc.wrapped && old(Quiet()) && AllPortsSingle(PortsAfter(e, old(ports))) && !ok && !ServiceBroken(e) ==>
        HandleStarved(e, old(fromPods), old(fromServices), old(tc.last), desired)
    {
      hide EndpointsHandled, Behaved, TightLedgers, Services, AllPortsSingle, Priorities, ServicesHandled, AllBuilt,
        Thinned, Counted, Room, Lacking, OwnServices, Quiet, PurgeVerdict, TargetPorts, HandleStarvedAt;
      CountedNothing(tc.wrapped, tc.last);
      desired := [];
      if !tc.wrapped {
        BehavedStart(tc.kernel, given, tc.last);
      }
      if e.kind == Error {
        return false, [];
      }
      if e.kind == Bookmark || !e.watched {
        NothingPurged(fromServices, ifaces, IsTight());
        return true, [];
      }
      if e.pods.None? {
        return false, [];
      }
      ok, desired := FollowService(e);
    }

    // The endpoints of the service's pods, and then the filters of the service itself.
    method FollowService(e: ServiceEvent) returns (ok: bool, ghost desired: seq<Service>)
      requires Valid() && Entitled() && e.kind in {Added, Modified, Deleted} && e.watched && e.pods.Some?
      modifies this, tc
      ensures Valid() && Entitled() && (old(tc.wrapped) ==> tc.wrapped)
      ensures !tc.wrapped ==> Behaved(old(tc.kernel), tc.kernel, old(given), given, old(tc.last), tc.last)
      ensures ok && !tc.wrapped && old(IsTight()) && AllPortsSingle(ports) ==>
        PurgeVerdict(e.kind == Modified, old(fromServices), ifaces, IsTight())
      ensures ports == PortsAfter(e, old(ports))
      ensures ok && !tc.wrapped ==>
        && EndpointsHandled(AllBuilt(e.pods.value, TargetPorts(ports)), percentage, hash, Services(fromPods))
        && ServicesHandled(e, ports, Services(old(fromServices)), Services(fromServices))
      ensures old(tc.script) == [] ==> tc.script == []
      ensures Counted(old(tc.wrapped), old(tc.last), tc.wrapped, tc.last, if ok then 0 else 1)
      ensures Thinned(AllBuilt(e.pods.value, TargetPorts(ports)), percentage, hash, desired)
      ensures !tc.wrapped && old(Quiet()) && AllPortsSingle(ports) ==>
        (ok <==> ServiceFits(e, ports, old(fromPods), old(tc.last), desired))
      ensures !tc.wrapped && old(Quiet()) && AllPortsSingle(ports) && !ok ==>
        HandleStarved(e, old(fromPods), old(fromServices), old(tc.last), desired)
    {
      hide EndpointsHandled, Behaved, TightLedgers, Services, AllPortsSingle, Priorities, ServicesHandled, AllBuilt,
        Thinned, Counted, Room, Lacking, OwnServices, Quiet, PurgeVerdict, TargetPorts, StarvedAt, UpdateStarvedAt,
        Deletable, PortsAfter, AllSingle;
      QuietParts();
      ports := PortsAfter(e, ports);
      var wanted := WantedEndpoints(e.pods.value);
      desired := wanted;
      if old(Quiet()) {
        QuietAgain();
      }
      ok := SetEndpoints(wanted);
      if !ok {
        return;
      }
      if !tc.wrapped {
        EndpointsNow(AllBuilt(e.pods.value, TargetPorts(ports)), percentage, hash, wanted, Services(fromPods));
      }
      ghost var k, mid, base, over := tc.kernel, given, tc.last, tc.wrapped;
      if !tc.wrapped && old(Quiet()) && AllPortsSingle(ports) {
        QuietAgain();
      }
      ok := UpdateServices(e);
      CountedTrans(old(tc.wrapped), old(tc.last), over, base, tc.wrapped, tc.last, 0, if ok then 0 else 1);
      if !tc.wrapped {
        BehavedTrans(old(tc.kernel), k, tc.kernel, old(given), mid, given, old(tc.last), base, tc.last);
      }
    }

    // A new pod: nothing if its first filter is there already, filters if it has an IP, else it waits for one.
    method PodAdded(e: PodEvent, filters: seq<Service>) returns (ok: bool)
      requires Valid() && Entitled() && e.kind == Added && filters == PodServices(e, ports) && filters != []
      modifies this`given, this`fromPods, this`podsWithoutIps, tc
      ensures Valid() && Entitled() && (old(tc.wrapped) ==> tc.wrapped)
      ensures !tc.wrapped ==> Behaved(old(tc.kernel), tc.kernel, old(given), given, old(tc.last), tc.last)
      ensures ok && !tc.wrapped && old(IsTight()) && AllSingle(filters) ==> IsTight()
      ensures ok && !tc.wrapped ==>
        PodHandled(e, ports, Services(old(fromPods)), Services(fromPods), old(podsWithoutIps), podsWithoutIps)
      ensures old(tc.script) == [] ==> tc.script == []
      ensures Counted(old(tc.wrapped), old(tc.last), tc.wrapped, tc.last, if ok then 0 else 1)
      ensures !tc.wrapped && old(Quiet()) && !ok ==>
        && Starved(!Room(old(tc.last), 1)) && fromPods == old(fromPods)
        && Deletable([], tc.kernel, ifaces, fromPods)
      ensures !tc.wrapped && old(tc.script) == [] && AllSingle(filters) ==>
        (ok <==> PodFits(e, ports, old(fromPods), old(podsWithoutIps), old(tc.last)))
    {
      hide Starved, Deletable;
      CountedNothing(tc.wrapped, tc.last);
      hide Counted, Room, Behaved, TightLedgers, AllSingle, Priorities, PodServices, Services;
      ok := true;
      if !tc.wrapped {
        BehavedStart(tc.kernel, given, tc.last);
      }
      var idx := IndexOf(Services(fromPods), filters[0]);
      if idx < |Services(fromPods)| {
        return;
      }
      if e.ip.Some? {
        ok := AppendPods(filters);
      } else {
        podsWithoutIps := podsWithoutIps + [e.name];
      }
    }

    // A pod that was waiting for an IP has got one.
    method PodModified(e: PodEvent, filters: seq<Service>) returns (ok: bool)
      requires Valid() && Entitled() && e.kind == Modified && filters == PodServices(e, ports) && filters != []
      modifies this`given, this`fromPods, this`podsWithoutIps, tc
      ensures Valid() && Entitled() && (old(tc.wrapped) ==> tc.wrapped)
      ensures !tc.wrapped ==> Behaved(old(tc.kernel), tc.kernel, old(given), given, old(tc.last), tc.last)
      ensures ok && !tc.wrapped && old(IsTight()) && AllSingle(filters) ==> IsTight()
      ensures ok && !tc.wrapped ==>
        PodHandled(e, ports, Services(old(fromPods)), Services(fromPods), old(podsWithoutIps), podsWithoutIps)
      ensures old(tc.script) == [] ==> tc.script == []
      ensures Counted(old(tc.wrapped), old(tc.last), tc.wrapped, tc.last, if ok then 0 else 1)
      ensures !tc.wrapped && old(Quiet()) && !ok ==>
        && Starved(!Room(old(tc.last), 1)) && fromPods == old(fromPods)
        && Deletable([], tc.kernel, ifaces, fromPods)
      ensures !tc.wrapped && old(tc.script) == [] && AllSingle(filters) ==>
        (ok <==> PodFits(e, ports, old(fromPods), old(podsWithoutIps), old(tc.last)))
    {
      hide Starved, Deletable;
      CountedNothing(tc.wrapped, tc.last);
      hide Counted, Room, Behaved, TightLedgers, AllSingle, Priorities, PodServices, Services, RemoveAt;
      ok := true;
      if !tc.wrapped {
        BehavedStart(tc.kernel, given, tc.last);
      }
      if e.ip.Some? && e.name in podsWithoutIps {
        var idx := FindName(podsWithoutIps, e.name);
        ok := AppendPods(filters);
        if ok {
          RemoveAtMultiset(podsWithoutIps, idx);
          podsWithoutIps := RemoveAt(podsWithoutIps, idx);
        }
      }
    }

    // handleKubernetesPodsChanges.
    method HandlePod(e: PodEvent) returns (ok: bool)
      requires Valid() && Entitled()
      modifies this, tc
      ensures Valid() && Entitled() && (old(tc.wrapped) ==> tc.wrapped)
      ensures !tc.wrapped ==> Behaved(old(tc.kernel), tc.kernel, old(given), given, old(tc.last), tc.last)
      ensures ok && !tc.wrapped && old(IsTight()) && AllPortsSingle(ports) ==> IsTight()
      ensures ports == old(ports) && fromServices == old(fromServices)
      ensures old(tc.script) == [] ==> tc.script == []
      ensures Counted(old(tc.wrapped), old(tc.last), tc.wrapped, tc.last, if ok then 0 else 1)
      ensures PodBroken(e, ports) ==> !ok && unchanged(tc, this)
      ensures !tc.wrapped && old(Quiet()) && AllPortsSingle(ports) ==>
        (ok <==> !PodBroken(e, ports) && PodFits(e, ports, old(fromPods), old(podsWithoutIps), old(tc.last)))
      ensures !tc.wrapped && old(Quiet()) && !ok && !PodBroken(e, ports) ==>
        && Starved(!Room(old(tc.last), 1)) && fromPods == old(fromPods)
        && Deletable([], tc.kernel, ifaces, fromPods)
      ensures ok && !tc.wrapped ==>
        PodHandled(e, ports, Services(old(fromPods)), Services(fromPods), old(podsWithoutIps), podsWithoutIps)
    {
      hide Starved, Deletable;
      CountedNothing(tc.wrapped, tc.last);
      QuietParts();
      hide Behaved, TightLedgers, AllSingle, SingleProtocol, AllPortsSingle, Priorities, Built, Services, Counted,
        Room, Quiet, PodFits, Entitled;
      AlwaysFits(e, ports, fromPods, podsWithoutIps, tc.last);
      if !tc.wrapped {
        BehavedStart(tc.kernel, given, tc.last);
      }
      if e.kind == Error {
        return false;
      }
      if e.kind == Bookmark {
        return true;
      }
      var filters := BuildServices(if e.ip.Some? then e.ip.value else "", TargetPorts(ports));
      if AllPortsSingle(ports) {
        TargetsSingle(ports, filters);
      }
      if filters == [] {
        return false;
      }
      match e.kind
      case Added => ok := PodAdded(e, filters);
      case Modified => ok := PodModified(e, filters);
      case Deleted => ok := DropPods(filters);
    }

    // One turn of watchServiceChanges: after an error the ledger concerned is purged and forgotten.
    method OnService(e: ServiceEvent) returns (handled: bool, ghost desired: seq<Service>)
      requires Valid() && Entitled()
      modifies this, tc
      ensures Valid() && Entitled() && (old(tc.wrapped) ==> tc.wrapped)
      ensures !tc.wrapped ==> Behaved(old(tc.kernel), tc.kernel, old(given), given, old(tc.last), tc.last)
      ensures !handled ==> fromServices == []
      ensures handled && !tc.wrapped && e.kind != Bookmark && e.watched ==>
        && ports == PortsAfter(e, old(ports))
        && ServicesHandled(e, ports, Services(old(fromServices)), Services(fromServices))
      ensures old(tc.script) == [] ==> tc.script == []
      ensures Counted(old(tc.wrapped), old(tc.last), tc.wrapped, tc.last, if handled then 0 else 1)
      ensures Wants(e, old(ports), percentage, hash, desired)
      ensures !tc.wrapped && old(Quiet()) && AllPortsSingle(PortsAfter(e, old(ports))) ==>
        ServiceOutcome(e, old(ports), old(fromPods), old(fromServices), old(tc.last), desired, ifaces, handled,
          IsTight())
    {
      hide Behaved, TightLedgers, Survives, Cleared, DistinctServices, Ascending, ServicesHandled, EndpointsHandled,
        Counted, Deletable, Wants, ServiceFits, AllPortsSingle, Services, Priorities, PurgeVerdict, Lookup;
      var ok;
      ok, desired := HandleService(e);
      handled := ok;
      if !ok {
        ghost var k, mid, base, was := tc.kernel, given, tc.last, fromServices;
        ghost var quiet := !tc.wrapped && old(Quiet()) && AllPortsSingle(PortsAfter(e, old(ports)));
        if quiet {
          if ServiceBroken(e) {
            TightDeletable(tc.kernel, ifaces, given, fromPods, was);
          } else {
            HandleDeletable(tc.kernel, ifaces, given, fromPods, fromServices, e.kind, old(fromPods), old(fromServices),
              old(tc.last), desired);
          }
        }
        var scrambled, gone;
        ok, scrambled, gone := Purge(fromServices);
        AscendingNone();
        fromServices := [];
        if quiet {
          tc.Bounded();
          if ServiceBroken(e) {
            TightPurged(k, tc.kernel, ifaces, given, fromPods, was, gone, tc.last);
          } else {
            StarvedPurged(k, tc.kernel, ifaces, given, fromPods, was, gone, tc.last, e.kind, old(fromPods),
              old(fromServices), old(tc.last), desired);
          }
        }
        if !tc.wrapped {
          BehavedTrans(old(tc.kernel), k, tc.kernel, old(given), mid, given, old(tc.last), base, tc.last);
        }
      }
    }

    method OnPod(e: PodEvent) returns (handled: bool)
      requires Valid() && Entitled()
      modifies this, tc
      ensures Valid() && Entitled() && (old(tc.wrapped) ==> tc.wrapped)
      ensures !tc.wrapped ==> Behaved(old(tc.kernel), tc.kernel, old(given), given, old(tc.last), tc.last)
      ensures !handled ==> fromPods == []
      ensures handled && !tc.wrapped ==>
        PodHandled(e, ports, Services(old(fromPods)), Services(fromPods), old(podsWithoutIps), podsWithoutIps)
      ensures old(tc.script) == [] ==> tc.script == []
      ensures Counted(old(tc.wrapped), old(tc.last), tc.wrapped, tc.last, if handled then 0 else 1)
      ensures !tc.wrapped && old(Quiet()) && AllPortsSingle(old(ports)) ==>
        PodOutcome(e, old(ports), old(fromPods), old(podsWithoutIps), old(tc.last), ifaces, handled, IsTight())
    {
      hide Behaved, TightLedgers, Survives, Cleared, DistinctServices, Ascending, PodHandled, Counted, Deletable,
        PodFits, PodBroken, AllPortsSingle, Services, Priorities, PurgeVerdict, Lookup;
      var ok := HandlePod(e);
      handled := ok;
      if ok {
        NothingPurged(old(fromPods), ifaces, IsTight());
      } else {
        ghost var k, mid, base, was := tc.kernel, given, tc.last, fromPods;
        if old(Quiet()) && PodBroken(e, ports) {
          TightDeletable(tc.kernel, ifaces, given, was, fromServices);
        }
        var scrambled, gone;
        ok, scrambled, gone := Purge(fromPods);
        if !tc.wrapped && old(Quiet()) {
          tc.Bounded();
          PodsPurged(k, tc.kernel, ifaces, given, was, fromServices, gone, tc.last,
            PodBroken(e, ports) || !Room(old(tc.last), 1));
        }
        AscendingNone();
        fromPods := [];
        if !tc.wrapped {
          BehavedTrans(old(tc.kernel), k, tc.kernel, old(given), mid, given, old(tc.last), base, tc.last);
        }
      }
    }
  }

  // The endpoints an event wants filtered, when it comes to that.
  ghost predicate Wants(e: ServiceEvent, ports: seq<ServicePort>, percentage: Option<int>, hash: Ip -> nat,
                        desired: seq<Service>)
  {
    e.kind != Error && e.kind != Bookmark && e.watched && e.pods.Some? ==>
      Thinned(AllBuilt(e.pods.value, TargetPorts(PortsAfter(e, ports))), percentage, hash, desired)
  }

  // What a service event does to tight ledgers when no tc command fails: it is handled exactly when it is sound and
  // there is room, and unless room was lacking the ledgers stay tight exactly when no purge had more than two filters.
  ghost predicate ServiceOutcome(e: ServiceEvent, ports: seq<ServicePort>, fromPods: seq<ServiceFilter>,
                                 fromServices: seq<ServiceFilter>, last: nat, desired: seq<Service>,
                                 ifaces: seq<Iface>, handled: bool, tight: bool)
  {
    && (handled <==> !ServiceBroken(e) && ServiceFits(e, PortsAfter(e, ports), fromPods, last, desired))
    && (handled || ServiceBroken(e) ==> PurgeVerdict(ServicePurges(e), fromServices, ifaces, tight))
    && (!handled && !ServiceBroken(e) ==>
          if CleanStop(fromPods, last, desired) then PurgeVerdict(true, fromServices, ifaces, tight)
          else ifaces != [] ==> !tight)
  }

  // The event runs out of priorities without leaving an unlisted filter: none was left at all, and no endpoint was kept
  // if it was for the endpoints that they did not last.
  ghost predicate CleanStop(fromPods: seq<ServiceFilter>, last: nat, desired: seq<Service>) {
    var lack := Lacking(fromPods, desired);
    if Room(last, lack) then !Room(last + lack, 1) else lack == |desired| && !Room(last, 1)
  }

  ghost predicate PodOutcome(e: PodEvent, ports: seq<ServicePort>, fromPods: seq<ServiceFilter>, waiting: seq<string>,
                             last: nat, ifaces: seq<Iface>, handled: bool, tight: bool)
  {
    && (handled <==> !PodBroken(e, ports) && PodFits(e, ports, fromPods, waiting, last))
    && (handled || PodBroken(e, ports) ==> PurgeVerdict(PodBroken(e, ports), fromPods, ifaces, tight))
    && (!handled && !PodBroken(e, ports) ==>
          if Room(last, 1) then ifaces != [] ==> !tight else PurgeVerdict(true, fromPods, ifaces, tight))
  }

  lemma AlwaysFits(e: PodEvent, ports: seq<ServicePort>, fromPods: seq<ServiceFilter>, waiting: seq<string>, last: nat)
    ensures e.kind != Added && e.kind != Modified ==> PodFits(e, ports, fromPods, waiting, last)
  {
  }

  lemma EndpointsNow(all: seq<Service>, percentage: Option<int>, hash: Ip -> nat, desired: seq<Service>,
                     after: seq<Service>)
    requires Thinned(all, percentage, hash, desired) && multiset(after) == multiset(desired)
    ensures EndpointsHandled(all, percentage, hash, after)
  {
  }

  lemma NothingPurged(ledger: seq<ServiceFilter>, ifaces: seq<Iface>, tight: bool)
    ensures tight ==> PurgeVerdict(false, ledger, ifaces, tight)
  {
  }

  lemma TightSwapped(k: Kernel, ifaces: seq<Iface>, given: set<nat>, pods: seq<ServiceFilter>,
                     services: seq<ServiceFilter>)
    ensures TightLedgers(k, ifaces, given, pods, services) <==> TightLedgers(k, ifaces, given, services, pods)
  {
    if TightLedgers(k, ifaces, given, pods, services) {
      TightSwap(k, ifaces, given, pods, services);
    } else if TightLedgers(k, ifaces, given, services, pods) {
      TightSwap(k, ifaces, given, services, pods);
    }
  }

  // A ledger that was deleted from itself and forgotten.
  lemma TightPurged(k0: Kernel, k1: Kernel, ifaces: seq<Iface>, given: set<nat>, other: seq<ServiceFilter>,
                    was: seq<ServiceFilter>, gone: set<nat>, base: nat)
    requires TightLedgers(k0, ifaces, given, other, was) && (forall q :: q in given ==> q <= base)
    requires forall i, q: nat :: Lookup(k1, i, q).Some? ==> q <= base
    requires Cleared(k0, k1, ifaces, gone) && gone <= Priorities(was)
    requires |was| <= 2 ==> gone == Priorities(was)
    requires DistinctServices(was) && Ascending(was) ==>
      forall j :: 0 <= j < |was| ==> (was[j].priority in gone <==> !Survives(j, |was|))
    ensures PurgeVerdict(true, was, ifaces, TightLedgers(k1, ifaces, given, other, []))
  {
    PlanStart(k1, ifaces, base);
    hide Installed, ServicesNoted, ServicePlan, PurgeVerdict, TightLedgers, Cleared, DistinctServices, Ascending,
      Survives, Priorities;
    TightReplaced(k0, k1, k1, ifaces, given, other, was, gone, base, [], []);
    assert given + Above(base, base + 0) == given;
  }

  method FindName(names: seq<string>, name: string) returns (idx: nat)
    requires name in names
    ensures idx < |names| && names[idx] == name && name !in names[..idx]
  {
    idx := 0;
    while names[idx] != name
      invariant idx < |names| && name in names[idx..] && name !in names[..idx]
      decreases |names| - idx
    {
      idx := idx + 1;
    }
  }

  ghost predicate AllPortsSingle(ports: seq<ServicePort>) {
    forall p :: p in ports ==> |AllProtocols(p.protocol)| == 1
  }

  lemma TargetsSingle(ports: seq<ServicePort>, services: seq<Service>)
    requires AllPortsSingle(ports) && forall s :: s in services ==> Port(s.port, s.protocol) in TargetPorts(ports)
    ensures AllSingle(services)
  {
    forall s | s in services ensures SingleProtocol(s) {
      var j :| 0 <= j < |ports| && TargetPorts(ports)[j] == Port(s.port, s.protocol);
      assert ports[j] in ports;
    }
  }

  lemma ClustersSingle(ports: seq<ServicePort>, services: seq<Service>)
    requires AllPortsSingle(ports) && forall s :: s in services ==> Port(s.port, s.protocol) in ClusterPorts(ports)
    ensures AllSingle(services)
  {
    forall s | s in services ensures SingleProtocol(s) {
      var j :| 0 <= j < |ports| && ClusterPorts(ports)[j] == Port(s.port, s.protocol);
      assert ports[j] in ports;
    }
  }

  lemma SwapBack(k: Kernel, ifaces: seq<Iface>, given: set<nat>, services: seq<ServiceFilter>, pods: seq<ServiceFilter>)
    ensures TightLedgers(k, ifaces, given, services, pods) ==> TightLedgers(k, ifaces, given, pods, services)
    ensures Leaky(k, ifaces, given, services, pods) ==> Leaky(k, ifaces, given, pods, services)
  {
    if TightLedgers(k, ifaces, given, services, pods) {
      TightSwap(k, ifaces, given, services, pods);
    }
    if Leaky(k, ifaces, given, services, pods) {
      LeakSwap(k, ifaces, given, services, pods);
    }
  }

  // Without priorities left the second ledger, now empty, is as right as it was; else a filter leaks.
  lemma FounderedVerdict(k: Kernel, k': Kernel, ifaces: seq<Iface>, given: set<nat>, pods: seq<ServiceFilter>,
                         base: nat, last: nat)
    requires Foundered(k, k', ifaces, {}, base) && (forall q :: q in given ==> q <= base) && Priorities(pods) <= given
    requires forall i, q: nat :: Lookup(k', i, q).Some? ==> q <= last
    ensures !Room(base, 1) ==>
      (TightLedgers(k', ifaces, given + Above(base, last), pods, []) <==> TightLedgers(k, ifaces, given, pods, []))
    ensures Room(base, 1) && ifaces != [] ==> Leaky(k', ifaces, given + Above(base, last), pods, [])
  {
    AscendingNone();
    if Room(base, 1) && ifaces != [] {
      var i, q: nat :| i in ifaces && q > base && Lookup(k', i, q).Some?;
      assert q in Above(base, last) && q !in Priorities(pods) + Priorities([]);
    }
  }

  lemma NoneDeletable(k: Kernel, ifaces: seq<Iface>)
    requires Distinct(ifaces)
    ensures Deletable([], k, ifaces, [])
  {
  }

  lemma BehavedStart(k: Kernel, given: set<nat>, last: nat)
    requires forall i, q: nat :: Lookup(k, i, q).Some? ==> q <= last
    ensures Behaved(k, k, given, given, last, last)
  {
  }

  lemma TightSwap(k: Kernel, ifaces: seq<Iface>, given: set<nat>, pods: seq<ServiceFilter>,
                  services: seq<ServiceFilter>)
    requires TightLedgers(k, ifaces, given, pods, services)
    ensures TightLedgers(k, ifaces, given, services, pods)
  {
    assert Priorities(pods) + Priorities(services) == Priorities(services) + Priorities(pods);
  }

  lemma TightReplaced(k0: Kernel, k1: Kernel, k2: Kernel, ifaces: seq<Iface>, given: set<nat>,
                      pods: seq<ServiceFilter>, was: seq<ServiceFilter>, gone: set<nat>, base: nat,
                      services: seq<Service>, built: seq<ServiceFilter>)
    requires TightLedgers(k0, ifaces, given, pods, was) && (forall q :: q in given ==> q <= base)
    requires Cleared(k0, k1, ifaces, gone) && gone <= Priorities(was)
    requires |was| <= 2 ==> gone == Priorities(was)
    requires DistinctServices(was) && Ascending(was) ==>
      forall j :: 0 <= j < |was| ==> (was[j].priority in gone <==> !Survives(j, |was|))
    requires Installed(k1, k2, ifaces, base, ServicePlan(services), Disrupted)
    requires ServicesNoted(built, base, services) && AllSingle(services)
    ensures PurgeVerdict(true, was, ifaces,
      TightLedgers(k2, ifaces, given + Above(base, base + |services|), pods, built))
  {
    hide Installed, ServicePlan, ServicesNoted, Ascending, DistinctServices, Cleared, Tight, AllSingle;
    TightParts(k0, ifaces, given, pods, was);
    if |was| <= 2 {
      assert gone == Priorities(was) - Priorities([]);
      TightSwap(k0, ifaces, given, pods, was);
      TightLedgersShrink(k0, k1, ifaces, given, was, pods, []) by {
        AscendingNone();
      }
      TightLedgersGrow(k1, k2, ifaces, given, [], pods, base, services, built);
      assert [] + built == built;
      TightSwap(k2, ifaces, given + Above(base, base + |services|), built, pods);
    } else if DistinctServices(was) && ifaces != [] {
      assert Survives(1, |was|);
      SurvivorLeaks(k0, k1, k2, ifaces, given, pods, was, gone, base, services, built);
    }
  }

  lemma TightDeletable(k: Kernel, ifaces: seq<Iface>, given: set<nat>, pods: seq<ServiceFilter>,
                       services: seq<ServiceFilter>)
    requires TightLedgers(k, ifaces, given, pods, services) && Distinct(ifaces)
    ensures Deletable([], k, ifaces, pods) && Deletable([], k, ifaces, services)
  {
  }

  lemma AscendingNone()
    ensures Ascending([]) && Priorities([]) == {}
  {
  }

  // The second of three or more filters stays in the kernel and on no ledger.
  lemma SurvivorLeaks(k0: Kernel, k1: Kernel, k2: Kernel, ifaces: seq<Iface>, given: set<nat>,
                      pods: seq<ServiceFilter>, was: seq<ServiceFilter>, gone: set<nat>, base: nat,
                      services: seq<Service>, built: seq<ServiceFilter>)
    requires TightLedgers(k0, ifaces, given, pods, was) && (forall q :: q in given ==> q <= base) && ifaces != []
    requires Cleared(k0, k1, ifaces, gone) && |was| > 2 && was[1].priority !in gone
    requires Installed(k1, k2, ifaces, base, ServicePlan(services), Disrupted)
    requires ServicesNoted(built, base, services) && AllSingle(services)
    ensures Lookup(k2, ifaces[0], was[1].priority).Some? && was[1].priority !in Priorities(pods) + Priorities(built)
    ensures !TightLedgers(k2, ifaces, given + Above(base, base + |services|), pods, built)
  {
    hide ServicePlan, ServicesNoted, Ascending;
    NotedPriorities(built, base, services);
    var p, i := was[1].priority, ifaces[0];
    assert was[1] in was && p in Priorities(was) && i in ifaces;
    assert Lookup(k2, i, p) == Lookup(k1, i, p) == Lookup(k0, i, p);
    assert p !in Priorities(pods) + Priorities(built);
  }

  lemma TightParts(k: Kernel, ifaces: seq<Iface>, given: set<nat>, pods: seq<ServiceFilter>,
                   services: seq<ServiceFilter>)
    requires TightLedgers(k, ifaces, given, pods, services)
    ensures Ascending(pods) && Ascending(services)
  {
  }

  lemma NotedGiven(built: seq<ServiceFilter>, base: nat, services: seq<Service>)
    requires ServicesNoted(built, base, services)
    ensures Priorities(built) <= Above(base, base + |ServicePlan(services)|)
  {
    forall p | p in Priorities(built) ensures base < p <= base + |ServicePlan(services)| {
      var j :| 0 <= j < |built| && built[j].priority == p;
      NotedAt(built, base, services, j);
      PlanAtLeast(services, j + 1);
      PlanAtLeast(services[..j + 1], 0);
    }
  }

  lemma AddedAreDesired(kept: seq<ServiceFilter>, added: seq<ServiceFilter>, desired: seq<Service>)
    requires multiset(Services(kept + added)) == multiset(desired) && AllSingle(desired)
    ensures AllSingle(Services(added))
  {
    ServicesConcat(kept, added);
    forall s | s in Services(added) ensures SingleProtocol(s) {
      assert s in multiset(Services(added));
      assert s in multiset(desired);
      assert s in desired;
    }
  }

  // Adding filters for services and then deleting what the ledger lists gives back the old table exactly when
  // every service names a single protocol: otherwise the filters of the other protocols are left behind.
  lemma AddThenClear(k: Kernel, k1: Kernel, k2: Kernel, ifaces: seq<Iface>, base: nat, services: seq<Service>,
                     built: seq<ServiceFilter>)
    requires ifaces != [] && forall i, q: nat :: Lookup(k, i, q).Some? ==> q <= base
    requires Installed(k, k1, ifaces, base, ServicePlan(services), Disrupted) && ServicesNoted(built, base, services)
    requires Cleared(k1, k2, ifaces, Priorities(built))
    ensures (forall i, q: nat :: Lookup(k2, i, q) == Lookup(k, i, q)) <==> AllSingle(services)
  {
    hide SingleProtocol, AllProtocols;
    if AllSingle(services) {
      NotedPriorities(built, base, services);
      SinglePlan(services, |services|);
      assert services[..|services|] == services;
    } else {
      var j :| 0 <= j < |services| && !SingleProtocol(services[j]);
      var p := base + |ServicePlan(services[..j])| + 1;
      MultiProtocolGap(built, base, services, j);
      assert Lookup(k1, ifaces[0], p).Some? && Lookup(k2, ifaces[0], p).Some?;
    }
  }

  lemma MultiProtocolGap(built: seq<ServiceFilter>, base: nat, services: seq<Service>, j: nat)
    requires ServicesNoted(built, base, services) && j < |services| && !SingleProtocol(services[j])
    ensures |ServicePlan(services[..j])| + 1 < |ServicePlan(services)|
    ensures base + |ServicePlan(services[..j])| + 1 !in Priorities(built)
  {
    hide AllProtocols, ServicesNoted;
    NotedLength(built, base, services);
    SomeProtocol(services[j].protocol);
    assert services[..j + 1][..j] == services[..j];
    assert |ServicePlan(services[..j + 1])| >= |ServicePlan(services[..j])| + 2;
    PlanAtLeast(services, j + 1);
    forall i | 0 <= i < |services| ensures built[i].priority != base + |ServicePlan(services[..j])| + 1 {
      NotedAt(built, base, services, i);
      if i < j {
        PlanAtLeast(services[..j], i + 1);
        assert services[..j][..i + 1] == services[..i + 1];
      } else {
        PlanAtLeast(services[..i + 1], j + 1);
        assert services[..i + 1][..j + 1] == services[..j + 1];
      }
    }
  }

  lemma NotedLength(built: seq<ServiceFilter>, base: nat, services: seq<Service>)
    requires ServicesNoted(built, base, services)
    ensures |built| == |services|
  {
  }

  // The entry added for a headless service names no protocol, so its endpoints get two filters each.
  lemma HeadlessIsMultiProtocol(ip: Ip)
    ensures !SingleProtocol(Service(ip, 0, ""))
  {
    assert Text.ToLower("") == "";
  }
}
