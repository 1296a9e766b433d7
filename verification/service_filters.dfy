// Filters for the endpoints of Kubernetes services and their ledgers (injector/network_disruption.go,
// from addServiceFilters to handleKubernetesPodsChanges).
module ServiceFilters {
  import opened DisruptionTypes
  import opened TrafficControl
  import opened HostFilters

  datatype Service = Service(ip: Ip, port: int, protocol: string)

  datatype ServiceFilter = ServiceFilter(service: Service, priority: nat)

  function Services(list: seq<ServiceFilter>): seq<Service> {
    seq(|list|, j requires 0 <= j < |list| => list[j].service)
  }

  function Priorities(list: seq<ServiceFilter>): set<nat> {
    set f | f in list :: f.priority
  }

  function EndpointMatch(s: Service, p: Protocol): Match {
    Match(None, Some(s.ip), 0, s.port, p, "")
  }

  // The filters asked for, in order: for each service, one per protocol.
  function ServicePlan(services: seq<Service>): seq<(Ip, Match)> {
    if services == [] then [] else
      var s := services[|services| - 1];
      ServicePlan(services[..|services| - 1]) + ServicePlanOne(s, AllProtocols(s.protocol))
  }

  function ServicePlanOne(s: Service, ps: seq<Protocol>): seq<(Ip, Match)> {
    seq(|ps|, j requires 0 <= j < |ps| => (s.ip, EndpointMatch(s, ps[j])))
  }

  predicate SingleProtocol(s: Service) {
    |AllProtocols(s.protocol)| == 1
  }

  ghost predicate AllSingle(services: seq<Service>) {
    forall s :: s in services ==> SingleProtocol(s)
  }

  // One filter per service when each names one protocol.
  lemma {:induction false} SinglePlan(services: seq<Service>, n: nat)
    requires AllSingle(services) && n <= |services|
    ensures |ServicePlan(services[..n])| == n
  {
    hide AllProtocols;
    if n > 0 {
      SinglePlan(services, n - 1);
      assert services[..n][..n - 1] == services[..n - 1];
      assert services[n - 1] in services;
    } else {
      assert services[..0] == [];
    }
  }

  lemma {:induction false} PlanAtLeast(services: seq<Service>, n: nat)
    requires n <= |services|
    ensures |ServicePlan(services[..n])| <= |ServicePlan(services)|
    ensures n < |services| ==> |ServicePlan(services[..n])| < |ServicePlan(services)|
    decreases |services|
  {
    hide AllProtocols;
    if n < |services| {
      var rest := services[..|services| - 1];
      assert rest[..n] == services[..n];
      SomeProtocol(services[|services| - 1].protocol);
      PlanAtLeast(rest, n);
    } else {
      assert services[..n] == services;
    }
  }

  lemma SomeProtocol(name: string)
    ensures |AllProtocols(name)| >= 1
  {
  }

  // The ledger: each service with the priority of the last of its filters.
  ghost predicate ServicesNoted(built: seq<ServiceFilter>, base: nat, services: seq<Service>) {
    && |built| == |services|
    && (services != [] ==>
          var n := |services| - 1;
          && built[n] == ServiceFilter(services[n], base + |ServicePlan(services)|)
          && ServicesNoted(built[..n], base, services[..n]))
  }

  lemma {:induction false} NotedAt(built: seq<ServiceFilter>, base: nat, services: seq<Service>, j: nat)
    requires ServicesNoted(built, base, services) && j < |services|
    ensures built[j] == ServiceFilter(services[j], base + |ServicePlan(services[..j + 1])|)
    decreases |services|
  {
    var n := |services| - 1;
    hide ServicePlan;
    if j < n {
      NotedAt(built[..n], base, services[..n], j);
      assert services[..n][..j + 1] == services[..j + 1];
    } else {
      assert services[..j + 1] == services;
    }
  }

  lemma NotedSnoc(built: seq<ServiceFilter>, base: nat, services: seq<Service>, n: nat, priority: nat)
    requires n < |services| && ServicesNoted(built, base, services[..n])
    requires priority == base + |ServicePlan(services[..n])| + |AllProtocols(services[n].protocol)|
    ensures ServicesNoted(built + [ServiceFilter(services[n], priority)], base, services[..n + 1])
    ensures ServicePlan(services[..n + 1]) ==
      ServicePlan(services[..n]) + ServicePlanOne(services[n], AllProtocols(services[n].protocol))
  {
    assert services[..n + 1][..n] == services[..n];
    assert (built + [ServiceFilter(services[n], priority)])[..n] == built;
  }

  method AddServiceFilters(tc: Tc, ifaces: seq<Iface>, services: seq<Service>)
    returns (ok: bool, built: seq<ServiceFilter>)
    requires tc.Valid() && tc.Logged()
    modifies tc
    ensures tc.Valid() && tc.Logged() && (old(tc.wrapped) ==> tc.wrapped)
    ensures !tc.wrapped ==> old(tc.last) <= tc.last && Churned(old(tc.kernel), tc.kernel, {}, old(tc.last), Disrupted)
    ensures !tc.wrapped && ok ==>
      && Installed(old(tc.kernel), tc.kernel, ifaces, old(tc.last), ServicePlan(services), Disrupted)
      && ServicesNoted(built, old(tc.last), services) && tc.last == old(tc.last) + |ServicePlan(services)|
    ensures !ok ==> built == []
    ensures old(tc.script) == [] ==> tc.script == []
    ensures Counted(old(tc.wrapped), old(tc.last), tc.wrapped, tc.last, if ok then 0 else 1)
    ensures !tc.wrapped && old(tc.script) == [] ==> (ok <==> Room(old(tc.last), |ServicePlan(services)|))
    ensures !tc.wrapped && old(tc.script) == [] && !ok ==> Stranded(old(tc.kernel), tc.kernel, ifaces, old(tc.last))
  {
    hide Installed, Churned, ServicePlan, ServicesNoted, AllProtocols, Stranded;
    ok, built := true, [];
    if !tc.wrapped {
      PlanStart(tc.kernel, ifaces, tc.last);
    }
    assert services[..0] == [];
    for n := 0 to |services|
      invariant ok && tc.Valid() && tc.Logged() && (old(tc.wrapped) ==> tc.wrapped)
      invariant !tc.wrapped ==>
        && Installed(old(tc.kernel), tc.kernel, ifaces, old(tc.last), ServicePlan(services[..n]), Disrupted)
        && Churned(old(tc.kernel), tc.kernel, {}, old(tc.last), Disrupted)
        && tc.last == old(tc.last) + |ServicePlan(services[..n])|
        && ServicesNoted(built, old(tc.last), services[..n])
        && (old(tc.script) == [] ==> Room(old(tc.last), |ServicePlan(services[..n])|))
        && (ServicePlan(services[..n]) == [] ==> tc.kernel == old(tc.kernel))
      invariant old(tc.script) == [] ==> tc.script == []
      invariant Counted(old(tc.wrapped), old(tc.last), tc.wrapped, tc.last, 0)
    {
      ghost var k, base := tc.kernel, tc.last;
      var priority;
      ok, priority := AddService(tc, ifaces, services[n]);
      PlanOneMore(services, n);
      if !tc.wrapped {
        ChurnedMore(old(tc.kernel), k, tc.kernel, old(tc.last), base, Disrupted);
      }
      if !ok {
        if !tc.wrapped && old(tc.script) == [] {
          StrandedMore(old(tc.kernel), k, tc.kernel, ifaces, old(tc.last), ServicePlan(services[..n]));
        }
        return false, [];
      }
      if !tc.wrapped {
        InstalledConcat(old(tc.kernel), k, tc.kernel, ifaces, old(tc.last), ServicePlan(services[..n]),
          ServicePlanOne(services[n], AllProtocols(services[n].protocol)));
        NotedSnoc(built, old(tc.last), services, n, priority);
      }
      built := built + [ServiceFilter(services[n], priority)];
    }
    assert services[..|services|] == services;
  }

  // What a failure for lack of priorities leaves behind: nothing if there was none left, else a filter nobody lists.
  ghost predicate Stranded(k: Kernel, k': Kernel, ifaces: seq<Iface>, base: nat) {
    if Room(base, 1) then ifaces != [] ==> Gained(k', ifaces, base) else k' == k
  }

  lemma StrandedAfter(k: Kernel, k': Kernel, ifaces: seq<Iface>, base: nat, plan: seq<(Ip, Match)>)
    requires Installed(k, k', ifaces, base, plan, Disrupted) && (plan == [] ==> k' == k)
    requires Room(base, |plan|) && !Room(base, |plan| + 1)
    ensures Stranded(k, k', ifaces, base)
  {
    if plan != [] && ifaces != [] {
      assert ifaces[0] in ifaces && Lookup(k', ifaces[0], base + 1).Some?;
    }
  }

  // A filter that was stranded stays; and what strands the next batch strands all.
  lemma StrandedMore(k: Kernel, k1: Kernel, k2: Kernel, ifaces: seq<Iface>, base: nat, plan: seq<(Ip, Match)>)
    requires Installed(k, k1, ifaces, base, plan, Disrupted) && (plan == [] ==> k1 == k) && Room(base, |plan|)
    requires Stranded(k1, k2, ifaces, base + |plan|) && Churned(k1, k2, {}, base + |plan|, Disrupted)
    ensures Stranded(k, k2, ifaces, base)
  {
    if plan != [] && ifaces != [] {
      assert ifaces[0] in ifaces && Lookup(k1, ifaces[0], base + 1).Some?;
      assert Lookup(k2, ifaces[0], base + 1) == Lookup(k1, ifaces[0], base + 1);
    } else if plan == [] && Room(base, 1) && ifaces != [] {
      var i, q: nat :| i in ifaces && q > base && Lookup(k2, i, q).Some?;
    }
  }

  // A batch that failed for lack of priorities, after these priorities were cleared.
  ghost predicate Foundered(k: Kernel, k': Kernel, ifaces: seq<Iface>, dropped: set<nat>, base: nat) {
    && (forall i, q: nat :: q <= base ==>
          Lookup(k', i, q) == if q in dropped && i in ifaces then None else Lookup(k, i, q))
    && if Room(base, 1) then ifaces != [] ==> Gained(k', ifaces, base)
       else forall i, q: nat :: q > base ==> Lookup(k', i, q).None?
  }

  lemma FounderedNow(k: Kernel, k1: Kernel, k2: Kernel, ifaces: seq<Iface>, dropped: set<nat>, base: nat)
    requires Cleared(k, k1, ifaces, dropped) && Churned(k1, k2, {}, base, Disrupted) && Stranded(k1, k2, ifaces, base)
    requires forall i, q: nat :: Lookup(k1, i, q).Some? ==> q <= base
    ensures Foundered(k, k2, ifaces, dropped, base)
  {
  }

  lemma PlanOneMore(services: seq<Service>, n: nat)
    requires n < |services|
    ensures |ServicePlan(services[..n + 1])| == |ServicePlan(services[..n])| + |AllProtocols(services[n].protocol)|
    ensures 1 <= |ServicePlan(services[..n + 1])| <= |ServicePlan(services)|
  {
    assert services[..n + 1][..n] == services[..n];
    SomeProtocol(services[n].protocol);
    PlanAtLeast(services, n + 1);
  }

  lemma PlanStart(k: Kernel, ifaces: seq<Iface>, base: nat)
    requires forall i, q: nat :: Lookup(k, i, q).Some? ==> q <= base
    ensures ServicePlan([]) == [] && Installed(k, k, ifaces, base, [], Disrupted) && Churned(k, k, {}, base, Disrupted)
    ensures ServicesNoted([], base, [])
  {
  }

  lemma InstalledConcat(k0: Kernel, k: Kernel, k': Kernel, ifaces: seq<Iface>, base: nat, a: seq<(Ip, Match)>,
                        b: seq<(Ip, Match)>)
    requires Installed(k0, k, ifaces, base, a, Disrupted) && Installed(k, k', ifaces, base + |a|, b, Disrupted)
    ensures Installed(k0, k', ifaces, base, a + b, Disrupted)
  {
  }

  // The inner loop: only the last priority is kept.
  method AddService(tc: Tc, ifaces: seq<Iface>, s: Service) returns (ok: bool, priority: nat)
    requires tc.Valid() && tc.Logged()
    modifies tc
    ensures tc.Valid() && tc.Logged() && (old(tc.wrapped) ==> tc.wrapped)
    ensures !tc.wrapped ==> old(tc.last) <= tc.last && Churned(old(tc.kernel), tc.kernel, {}, old(tc.last), Disrupted)
    ensures !tc.wrapped && ok ==>
      && Installed(old(tc.kernel), tc.kernel, ifaces, old(tc.last), ServicePlanOne(s, AllProtocols(s.protocol)),
           Disrupted)
      && priority == tc.last == old(tc.last) + |AllProtocols(s.protocol)|
    ensures old(tc.script) == [] ==> tc.script == []
    ensures Counted(old(tc.wrapped), old(tc.last), tc.wrapped, tc.last, if ok then 0 else 1)
    ensures !tc.wrapped && old(tc.script) == [] ==> (ok <==> Room(old(tc.last), |AllProtocols(s.protocol)|))
    ensures !tc.wrapped && old(tc.script) == [] && !ok ==> Stranded(old(tc.kernel), tc.kernel, ifaces, old(tc.last))
  {
    ok, priority := true, 0;
    var ps := AllProtocols(s.protocol);
    for m := 0 to |ps|
      invariant tc.Valid() && tc.Logged() && (old(tc.wrapped) ==> tc.wrapped)
      invariant !tc.wrapped ==>
        && Installed(old(tc.kernel), tc.kernel, ifaces, old(tc.last), ServicePlanOne(s, ps[..m]), Disrupted)
        && tc.last == old(tc.last) + m && (m > 0 ==> priority == tc.last) && Room(old(tc.last), m)
        && (m == 0 ==> tc.kernel == old(tc.kernel))
      invariant old(tc.script) == [] ==> tc.script == []
      invariant Counted(old(tc.wrapped), old(tc.last), tc.wrapped, tc.last, 0)
    {
      ghost var k := tc.kernel;
      var p := tc.AddFilter(ifaces, Filter(EndpointMatch(s, ps[m]), Disrupted));
      if p.None? {
        if !tc.wrapped && old(tc.script) == [] {
          StrandedAfter(old(tc.kernel), k, ifaces, old(tc.last), ServicePlanOne(s, ps[..m]));
        }
        return false, 0;
      }
      priority := p.value;
      assert ServicePlanOne(s, ps[..m + 1]) == ServicePlanOne(s, ps[..m]) + [(s.ip, EndpointMatch(s, ps[m]))];
      if !tc.wrapped {
        InstalledSnoc(old(tc.kernel), k, tc.kernel, ifaces, old(tc.last), ServicePlanOne(s, ps[..m]),
          (s.ip, EndpointMatch(s, ps[m])), Disrupted);
      }
    }
    assert ps[..|ps|] == ps;
  }

  /* ---------- which endpoints to filter ---------- */

  datatype Port = Port(number: int, protocol: string)

  // buildServiceFiltersFromPod, buildServiceFiltersFromService: one filter per port, without duplicates.
  method BuildServices(ip: Ip, ports: seq<Port>) returns (services: seq<Service>)
    ensures services == Built(ip, ports) && Distinct(services)
    ensures forall s :: s in services <==> s.ip == ip && Port(s.port, s.protocol) in ports
  {
    services := [];
    assert ports[..0] == [];
    for n := 0 to |ports|
      invariant services == Built(ip, ports[..n]) && Distinct(services)
      invariant forall s :: s in services <==> s.ip == ip && Port(s.port, s.protocol) in ports[..n]
    {
      assert ports[..n + 1][..n] == ports[..n];
      var s := Service(ip, ports[n].number, ports[n].protocol);
      if s !in services {
        services := services + [s];
      }
    }
    assert ports[..|ports|] == ports;
  }

  // One service per port, in order and without repetition.
  function Built(ip: Ip, ports: seq<Port>): seq<Service> {
    if ports == [] then [] else
      var rest, last := Built(ip, ports[..|ports| - 1]), ports[|ports| - 1];
      var s := Service(ip, last.number, last.protocol);
      if s in rest then rest else rest + [s]
  }

  // The services of all the pods that have an IP.
  function AllBuilt(pods: seq<Option<Ip>>, ports: seq<Port>): seq<Service> {
    if pods == [] then [] else
      var rest, last := AllBuilt(pods[..|pods| - 1], ports), pods[|pods| - 1];
      if last.Some? then rest + Built(last.value, ports) else rest
  }

  // The endpoints of the pods that have an IP.
  method DesiredServices(pods: seq<Option<Ip>>, ports: seq<Port>) returns (desired: seq<Service>)
    ensures desired == AllBuilt(pods, ports)
    ensures forall s :: s in desired <==> Some(s.ip) in pods && Port(s.port, s.protocol) in ports
  {
    desired := [];
    for n := 0 to |pods|
      invariant desired == AllBuilt(pods[..n], ports)
      invariant forall s :: s in desired <==> Some(s.ip) in pods[..n] && Port(s.port, s.protocol) in ports
    {
      assert pods[..n + 1][..n] == pods[..n];
      if pods[n].Some? {
        var services := BuildServices(pods[n].value, ports);
        desired := desired + services;
      }
    }
    assert pods[..|pods|] == pods;
  }

  ghost predicate Grouped(services: seq<Service>, byIp: map<Ip, seq<Service>>) {
    && byIp.Keys == IpsOf(services)
    && (forall ip, s :: ip in byIp ==> multiset(byIp[ip])[s] == if s.ip == ip then multiset(services)[s] else 0)
  }

  lemma GroupedStart()
    ensures IpsOf([]) == {} && Grouped([], map[])
  {
  }

  lemma GroupedSnoc(services: seq<Service>, byIp: map<Ip, seq<Service>>, s: Service)
    requires Grouped(services, byIp)
    ensures IpsOf(services + [s]) == IpsOf(services) + {s.ip}
    ensures Grouped(services + [s], byIp[s.ip := (if s.ip in byIp then byIp[s.ip] else []) + [s]])
  {
    assert forall t :: t in services + [s] <==> t in services || t == s;
    assert multiset(services + [s]) == multiset(services) + multiset{s};
    if s.ip !in byIp {
      forall t: Service | t.ip == s.ip ensures multiset(services)[t] == 0 {
        assert t in multiset(services) ==> t in services && t.ip in IpsOf(services);
      }
    }
  }

  method GroupByIp(services: seq<Service>) returns (ips: seq<Ip>, byIp: map<Ip, seq<Service>>)
    ensures Distinct(ips) && Elements(ips) == IpsOf(services) && Grouped(services, byIp)
  {
    hide Grouped, IpsOf;
    GroupedStart();
    assert services[..0] == [];
    ips, byIp := [], map[];
    for n := 0 to |services|
      invariant Distinct(ips) && Elements(ips) == IpsOf(services[..n]) && Grouped(services[..n], byIp)
    {
      var s := services[n];
      assert services[..n + 1] == services[..n] + [s];
      GroupedSnoc(services[..n], byIp, s);
      byIp := byIp[s.ip := (if s.ip in byIp then byIp[s.ip] else []) + [s]];
      if s.ip !in ips {
        assert s.ip !in Elements(ips);
        ElementsSnoc(ips, s.ip);
        ips := ips + [s.ip];
      } else {
        assert s.ip in Elements(ips);
      }
    }
    assert services[..|services|] == services;
  }

  // Just the services of the given IPs, each as often as before.
  ghost predicate ShareOf(services: seq<Service>, ips: set<Ip>, selected: seq<Service>) {
    forall s :: multiset(selected)[s] == if s.ip in ips then multiset(services)[s] else 0
  }

  lemma ShareNone(services: seq<Service>)
    ensures ShareOf(services, {}, []) && ShareOf(services, IpsOf(services), services)
  {
    forall s: Service ensures s.ip !in IpsOf(services) ==> multiset(services)[s] == 0 {
      assert s in multiset(services) ==> s in services;
    }
  }

  lemma ShareMore(services: seq<Service>, ips: set<Ip>, selected: seq<Service>, byIp: map<Ip, seq<Service>>, ip: Ip)
    requires ShareOf(services, ips, selected) && Grouped(services, byIp) && ip in byIp && ip !in ips
    ensures ShareOf(services, ips + {ip}, selected + byIp[ip])
  {
    assert multiset(selected + byIp[ip]) == multiset(selected) + multiset(byIp[ip]);
  }

  lemma ShareMembers(services: seq<Service>, ips: set<Ip>, selected: seq<Service>)
    requires ShareOf(services, ips, selected)
    ensures forall s :: s in selected <==> s in services && s.ip in ips
  {
    forall s ensures s in selected <==> s in services && s.ip in ips {
      assert s in selected <==> s in multiset(selected);
      assert s in services <==> s in multiset(services);
    }
  }

  // selectServiceFiltersByPercentage: all the filters of a share of the IPs.
  method SelectServices(services: seq<Service>, percentage: int, hash: Ip -> nat)
    returns (selected: seq<Service>, ghost chosen: set<Ip>)
    ensures percentage <= 0 || percentage >= 100 || services == [] ==> selected == services
    ensures ShareOf(services, chosen, selected)
    ensures chosen <= IpsOf(services)
    ensures Selection.DistinctHashes(IpsOf(services), hash) ==>
      chosen == Selection.Share(IpsOf(services), hash, percentage)
  {
    hide Selection.Share, Selection.Chosen, Selection.DistinctHashes, Grouped, ShareOf, IpsOf;
    ShareNone(services);
    if percentage <= 0 || percentage >= 100 || services == [] {
      WholeShare(services, percentage, hash);
      return services, IpsOf(services);
    }
    var ips, byIp := GroupByIp(services);
    var kept := Selection.SelectByPercentage(ips, percentage, hash);
    KeptAreGiven(ips, percentage, hash, kept);
    GroupedIps(services, byIp);
    chosen := Elements(kept);
    selected := [];
    assert Elements(kept[..0]) == {};
    for n := 0 to |kept|
      invariant ShareOf(services, Elements(kept[..n]), selected)
    {
      assert kept[n] in Elements(kept) && kept[..n + 1] == kept[..n] + [kept[n]];
      ElementsSnoc(kept[..n], kept[n]);
      ShareMore(services, Elements(kept[..n]), selected, byIp, kept[n]);
      selected := selected + byIp[kept[n]];
    }
    assert kept[..|kept|] == kept;
  }

  lemma GroupedIps(services: seq<Service>, byIp: map<Ip, seq<Service>>)
    requires Grouped(services, byIp)
    ensures byIp.Keys == IpsOf(services)
  {
  }

  lemma WholeShare(services: seq<Service>, percentage: int, hash: Ip -> nat)
    requires percentage <= 0 || percentage >= 100 || services == []
    ensures Selection.Share(IpsOf(services), hash, percentage) == IpsOf(services)
  {
  }

  lemma KeptAreGiven(ips: seq<Ip>, percentage: int, hash: Ip -> nat, kept: seq<Ip>)
    requires Selection.Chosen(ips, percentage, hash, kept)
    ensures Elements(kept) <= Elements(ips) && (Distinct(ips) ==> Distinct(kept))
  {
  }

  function IpsOf(services: seq<Service>): set<Ip> {
    set s | s in services :: s.ip
  }

  /* ---------- following a change of the endpoints ---------- */

  ghost predicate Ascending(list: seq<ServiceFilter>) {
    forall a, b :: 0 <= a < b < |list| ==> list[a].priority < list[b].priority
  }

  // k' is k with these priorities cleared on the given interfaces.
  ghost predicate Cleared(k: Kernel, k': Kernel, ifaces: seq<Iface>, ps: set<nat>) {
    forall i, q: nat :: Lookup(k', i, q) == if q in ps && i in ifaces then None else Lookup(k, i, q)
  }

  lemma ClearedOneMore(k: Kernel, k1: Kernel, k2: Kernel, ifaces: seq<Iface>, ps: set<nat>, p: nat)
    requires Cleared(k, k1, ifaces, ps) && Removed(k1, k2, ifaces, p)
    ensures Cleared(k, k2, ifaces, ps + {p})
  {
  }

  // tc has no reason to refuse the deletion of these filters.
  ghost predicate Deletable(script: seq<bool>, k: Kernel, ifaces: seq<Iface>, list: seq<ServiceFilter>) {
    && script == [] && Distinct(ifaces) && Ascending(list)
    && forall q, i :: q in Priorities(list) && i in ifaces ==> Lookup(k, i, q).Some?
  }

  lemma StillDeletable(script: seq<bool>, k: Kernel, k': Kernel, ifaces: seq<Iface>, list: seq<ServiceFilter>, n: nat,
                       gone: set<nat>)
    requires Deletable(script, k, ifaces, list) && n < |list|
    requires Cleared(k, k', ifaces, gone) && list[n].priority !in gone
    ensures Distinct(ifaces) && forall i :: i in ifaces ==> Lookup(k', i, list[n].priority).Some?
  {
    assert list[n].priority in Priorities(list);
  }

  // Before the n-th turn of KeepWanted only earlier priorities are cleared.
  lemma NotYetDropped(before: seq<ServiceFilter>, n: nat, kept: seq<ServiceFilter>)
    requires Ascending(before) && n < |before|
    ensures before[n].priority !in Priorities(before[..n]) - Priorities(kept)
  {
    assert forall f :: f in before[..n] ==> f.priority < before[n].priority;
  }

  // How many filters the wanted services need beyond those on the ledger.
  ghost function Lacking(before: seq<ServiceFilter>, desired: seq<Service>): nat {
    |multiset(desired) - multiset(Services(before))|
  }

  lemma ServicesConcat(a: seq<ServiceFilter>, b: seq<ServiceFilter>)
    ensures Services(a + b) == Services(a) + Services(b)
  {
  }

  lemma ServicesSnoc(list: seq<ServiceFilter>, f: ServiceFilter)
    ensures Services(list + [f]) == Services(list) + [f.service]
    ensures multiset(Services(list + [f])) == multiset(Services(list)) + multiset{f.service}
  {
  }

  lemma PrioritiesSnoc(list: seq<ServiceFilter>, f: ServiceFilter)
    ensures Priorities(list + [f]) == Priorities(list) + {f.priority}
  {
  }

  lemma PermitsOne(tc: Tc, list: seq<ServiceFilter>, f: ServiceFilter)
    requires (!tc.wrapped ==> tc.turn.Permits(Priorities(list))) && f in list
    ensures !tc.wrapped ==> tc.turn.Permits({f.priority})
  {
    assert f.priority in Priorities(list);
  }

  // The first loop of handlePodEndpointsServiceFiltersOnKubernetesServiceChanges: filters that are still
  // wanted are kept, each against one occurrence among the wanted ones; the others are deleted.
  method KeepWanted(tc: Tc, ifaces: seq<Iface>, before: seq<ServiceFilter>, desired: seq<Service>)
    returns (ok: bool, kept: seq<ServiceFilter>, missing: seq<Service>)
    requires tc.Valid() && tc.Logged() && (!tc.wrapped ==> tc.turn.Permits(Priorities(before)))
    modifies tc`kernel, tc`script, tc`record
    ensures tc.Valid() && tc.Logged() && OnlyCleared(old(tc.kernel), tc.kernel, Priorities(before))
    ensures multiset(Services(kept)) + multiset(missing) == multiset(desired)
    ensures ok ==> Matched(before, desired, kept, missing)
    ensures forall f :: f in kept ==> f in before
    ensures Ascending(before) ==> Ascending(kept)
    ensures ok && Ascending(before) ==>
      Cleared(old(tc.kernel), tc.kernel, ifaces, Priorities(before) - Priorities(kept))
    ensures ok ==> NoneWanted(before, kept, missing)
    ensures old(tc.script) == [] ==> tc.script == []
    ensures old(Deletable(tc.script, tc.kernel, ifaces, before)) ==> ok
  {
    hide Cleared, OnlyCleared, Removed, Priorities, Ascending, NoneWanted, RemoveAt, Tc.Valid, Tc.Logged, Deletable,
      Matched;
    ok, kept, missing := true, [], desired;
    KeepStart(tc.kernel, ifaces, before);
    NoneWantedYet(desired);
    DeletableParts(tc.script, tc.kernel, ifaces, before);
    assert before[..0] == [];
    for n := 0 to |before|
      invariant tc.Valid() && tc.Logged() && OnlyCleared(old(tc.kernel), tc.kernel, Priorities(before))
      invariant Matched(before[..n], desired, kept, missing)
      invariant forall f :: f in kept ==> f in before[..n]
      invariant Ascending(before) ==> Ascending(kept)
      invariant Ascending(before) ==>
        Cleared(old(tc.kernel), tc.kernel, ifaces, Priorities(before[..n]) - Priorities(kept))
      invariant ok && NoneWanted(before[..n], kept, missing)
      invariant old(tc.script) == [] ==> tc.script == []
    {
      var f := before[n];
      assert before[..n + 1] == before[..n] + [f];
      PrioritiesSnoc(before[..n], f);
      var idx := IndexOf(missing, f.service);
      if idx < |missing| {
        MatchedKept(before[..n], desired, kept, missing, f, idx);
        PrioritiesSnoc(kept, f);
        WantedKept(before[..n], kept, missing, f, idx);
        if Ascending(before) {
          KeptOneMore(before, n, kept);
        }
        kept, missing := kept + [f], RemoveAt(missing, idx);
      } else {
        MatchedDropped(before[..n], desired, kept, missing, f);
        ghost var k := tc.kernel;
        if old(Deletable(tc.script, tc.kernel, ifaces, before)) {
          NotYetDropped(before, n, kept);
          StillDeletable([], old(tc.kernel), k, ifaces, before, n, Priorities(before[..n]) - Priorities(kept));
        }
        PermitsOne(tc, before, f);
        ok := tc.RemoveFilter(ifaces, f.priority);
        ClearedMine(old(tc.kernel), k, tc.kernel, before, n);
        if !ok {
          MatchedWhole(before[..n], desired, kept, missing);
          return;
        }
        WantedDropped(before[..n], kept, missing, f);
        if Ascending(before) {
          DroppedOneMore(before, n, kept);
          ClearedOneMore(old(tc.kernel), k, tc.kernel, ifaces, Priorities(before[..n]) - Priorities(kept), f.priority);
        }
      }
    }
    assert before[..|before|] == before;
    MatchedWhole(before, desired, kept, missing);
  }

  // What was kept and what is missing make up what is wanted; missing is what the old ledger did not have.
  ghost predicate Matched(before: seq<ServiceFilter>, desired: seq<Service>, kept: seq<ServiceFilter>,
                          missing: seq<Service>)
  {
    && multiset(Services(kept)) + multiset(missing) == multiset(desired)
    && multiset(missing) == multiset(desired) - multiset(Services(before))
  }

  lemma MatchedWhole(before: seq<ServiceFilter>, desired: seq<Service>, kept: seq<ServiceFilter>, missing: seq<Service>)
    requires Matched(before, desired, kept, missing)
    ensures multiset(Services(kept)) + multiset(missing) == multiset(desired)
  {
  }

  lemma MatchedKept(before: seq<ServiceFilter>, desired: seq<Service>, kept: seq<ServiceFilter>,
                    missing: seq<Service>, f: ServiceFilter, idx: nat)
    requires Matched(before, desired, kept, missing) && idx < |missing| && missing[idx] == f.service
    ensures Matched(before + [f], desired, kept + [f], RemoveAt(missing, idx))
  {
    hide RemoveAt, Services;
    ServicesSnoc(before, f);
    ServicesSnoc(kept, f);
    RemoveAtMultiset(missing, idx);
    assert f.service in multiset(missing);
  }

  lemma MatchedDropped(before: seq<ServiceFilter>, desired: seq<Service>, kept: seq<ServiceFilter>,
                       missing: seq<Service>, f: ServiceFilter)
    requires Matched(before, desired, kept, missing) && f.service !in missing
    ensures Matched(before + [f], desired, kept, missing)
  {
    hide Services;
    ServicesSnoc(before, f);
    assert f.service !in multiset(missing);
  }

  // What was dropped was wanted by nobody left over.
  ghost predicate NoneWanted(before: seq<ServiceFilter>, kept: seq<ServiceFilter>, missing: seq<Service>) {
    forall f :: f in before && f !in kept ==> f.service !in missing
  }

  lemma NoneWantedYet(desired: seq<Service>)
    ensures NoneWanted([], [], desired) && Ascending([]) && Matched([], desired, [], desired)
  {
  }

  lemma WantedKept(before: seq<ServiceFilter>, kept: seq<ServiceFilter>, missing: seq<Service>, f: ServiceFilter,
                   idx: nat)
    requires NoneWanted(before, kept, missing) && idx < |missing|
    ensures NoneWanted(before + [f], kept + [f], RemoveAt(missing, idx))
  {
    assert forall s :: s in RemoveAt(missing, idx) ==> s in missing;
    assert f in kept + [f] && forall g :: g in kept ==> g in kept + [f];
  }

  lemma WantedDropped(before: seq<ServiceFilter>, kept: seq<ServiceFilter>, missing: seq<Service>, f: ServiceFilter)
    requires NoneWanted(before, kept, missing) && f.service !in missing
    ensures NoneWanted(before + [f], kept, missing)
  {
  }

  // findServiceFilter: the first position, or the length when there is none.
  method IndexOf(services: seq<Service>, s: Service) returns (idx: nat)
    ensures idx <= |services| && (idx < |services| ==> services[idx] == s)
    ensures forall j :: 0 <= j < idx ==> services[j] != s
  {
    idx := 0;
    while idx < |services|
      invariant idx <= |services| && forall j :: 0 <= j < idx ==> services[j] != s
    {
      if services[idx] == s {
        return;
      }
      idx := idx + 1;
    }
  }

  lemma KeepStart(k: Kernel, ifaces: seq<Iface>, before: seq<ServiceFilter>)
    ensures Cleared(k, k, ifaces, Priorities(before[..0]) - Priorities([])) && OnlyCleared(k, k, Priorities(before))
    ensures Services([]) == []
  {
  }

  lemma ClearedMine(k: Kernel, k1: Kernel, k2: Kernel, before: seq<ServiceFilter>, n: nat)
    requires n < |before| && OnlyCleared(k, k1, Priorities(before)) && OnlyCleared(k1, k2, {before[n].priority})
    ensures OnlyCleared(k, k2, Priorities(before))
  {
    assert before[n] in before;
    OnlyClearedTrans(k, k1, k2, Priorities(before), {before[n].priority});
  }

  lemma KeptOneMore(before: seq<ServiceFilter>, n: nat, kept: seq<ServiceFilter>)
    requires n < |before| && Ascending(before) && Ascending(kept) && forall f :: f in kept ==> f in before[..n]
    ensures Ascending(kept + [before[n]])
    ensures Priorities(before[..n]) + {before[n].priority} - (Priorities(kept) + {before[n].priority}) ==
      Priorities(before[..n]) - Priorities(kept)
  {
    assert forall f :: f in before[..n] ==> f.priority < before[n].priority;
  }

  lemma DroppedOneMore(before: seq<ServiceFilter>, n: nat, kept: seq<ServiceFilter>)
    requires n < |before| && Ascending(before) && forall f :: f in kept ==> f in before[..n]
    ensures Priorities(before[..n]) + {before[n].priority} - Priorities(kept) ==
      Priorities(before[..n]) - Priorities(kept) + {before[n].priority}
  {
    assert forall f :: f in before[..n] ==> f.priority < before[n].priority;
  }

  // What a change of endpoints does to the kernel: the dropped priorities are cleared, the filters of the
  // new services are installed above the counter, and nothing else changes.
  ghost predicate Exchanged(k: Kernel, k': Kernel, ifaces: seq<Iface>, dropped: set<nat>, base: nat,
                            added: seq<Service>)
  {
    forall i, q: nat :: Lookup(k', i, q) ==
      if base < q <= base + |ServicePlan(added)| && i in ifaces then
        Some(Filter(ServicePlan(added)[q - base - 1].1, Disrupted))
      else if q in dropped && i in ifaces then None
      else Lookup(k, i, q)
  }

  // handlePodEndpointsServiceFiltersOnKubernetesServiceChanges, once the wanted services are known. The
  // new ledger has exactly the wanted services, each as often as wanted; survivors keep their priority.
  method ExchangeEndpoints(tc: Tc, ifaces: seq<Iface>, before: seq<ServiceFilter>, desired: seq<Service>)
    returns (ok: bool, after: seq<ServiceFilter>, kept: seq<ServiceFilter>, added: seq<ServiceFilter>)
    requires tc.Valid() && tc.Logged() && (!tc.wrapped ==> tc.turn.Permits(Priorities(before)))
    modifies tc
    ensures tc.Valid() && tc.Logged() && (old(tc.wrapped) ==> tc.wrapped)
    ensures !tc.wrapped ==>
      old(tc.last) <= tc.last && Churned(old(tc.kernel), tc.kernel, Priorities(before), old(tc.last), Disrupted)
    ensures after == if ok then kept + added else []
    ensures forall f :: f in kept ==> f in before
    ensures ok && !tc.wrapped ==> multiset(Services(after)) == multiset(desired)
    ensures ok && !tc.wrapped ==>
      ServicesNoted(added, old(tc.last), Services(added)) && tc.last == old(tc.last) + |ServicePlan(Services(added))|
    ensures Ascending(before) ==> Ascending(kept)
    ensures ok && !tc.wrapped && Ascending(before) ==>
      Exchanged(old(tc.kernel), tc.kernel, ifaces, Priorities(before) - Priorities(kept), old(tc.last), Services(added))
    ensures old(tc.script) == [] ==> tc.script == []
    ensures Counted(old(tc.wrapped), old(tc.last), tc.wrapped, tc.last, if ok then 0 else 1)
    ensures ok && !tc.wrapped && AllSingle(desired) ==> tc.last == old(tc.last) + Lacking(before, desired)
    ensures old(Deletable(tc.script, tc.kernel, ifaces, before)) && !tc.wrapped && AllSingle(desired) ==>
      (ok <==> Room(old(tc.last), Lacking(before, desired)))
    ensures old(Deletable(tc.script, tc.kernel, ifaces, before)) && !tc.wrapped && !ok ==>
      && Foundered(old(tc.kernel), tc.kernel, ifaces, Priorities(before) - Priorities(kept), old(tc.last))
      && |kept| + Lacking(before, desired) == |desired|
  {
    hide Cleared, OnlyCleared, Removed, Priorities, Churned, Installed, ServicePlan, ServicesNoted, Ascending,
      Deletable, AllSingle, Services, Tc.Valid, Tc.Logged, Lacking, Exchanged, NoneWanted, Stranded, Foundered;
    after, added := [], [];
    tc.Bounded();
    DeletableParts(tc.script, tc.kernel, ifaces, before);
    var missing;
    ok, kept, missing := KeepWanted(tc, ifaces, before, desired);
    ghost var k := tc.kernel;
    if !tc.wrapped {
      ClearedIsChurned(old(tc.kernel), k, Priorities(before), Priorities(before), tc.last, Disrupted);
    }
    if !ok {
      return;
    }
    if AllSingle(desired) {
      MissingPlan(before, desired, missing);
    }
    tc.Bounded();
    KeptSize(before, desired, kept, missing);
    ok, added := AddServiceFilters(tc, ifaces, missing);
    if old(Deletable(tc.script, tc.kernel, ifaces, before)) && !tc.wrapped && !ok {
      FounderedNow(old(tc.kernel), k, tc.kernel, ifaces, Priorities(before) - Priorities(kept), old(tc.last));
    }
    if !tc.wrapped {
      ChurnedThenAdded(old(tc.kernel), k, tc.kernel, Priorities(before), old(tc.last), Disrupted);
    }
    if ok {
      after := kept + added;
      if !tc.wrapped {
        NotedServices(added, old(tc.last), missing);
        ServicesConcat(kept, added);
        if Ascending(before) {
          ClearedThenInstalled(old(tc.kernel), k, tc.kernel, ifaces, Priorities(before) - Priorities(kept),
            old(tc.last), missing);
        }
      }
    }
  }

  lemma KeptSize(before: seq<ServiceFilter>, desired: seq<Service>, kept: seq<ServiceFilter>, missing: seq<Service>)
    requires Matched(before, desired, kept, missing)
    ensures |kept| + Lacking(before, desired) == |desired|
  {
    var both := Services(kept) + missing;
    assert multiset(both) == multiset(desired);
    assert |both| == |multiset(both)| && |desired| == |multiset(desired)| && |missing| == |multiset(missing)|;
  }

  lemma MissingPlan(before: seq<ServiceFilter>, desired: seq<Service>, missing: seq<Service>)
    requires AllSingle(desired) && multiset(missing) == multiset(desired) - multiset(Services(before))
    ensures |ServicePlan(missing)| == Lacking(before, desired)
  {
    forall s | s in missing ensures SingleProtocol(s) {
      assert s in multiset(missing);
      assert s in multiset(desired) && s in desired;
    }
    SinglePlan(missing, |missing|);
    assert missing[..|missing|] == missing && |missing| == |multiset(missing)|;
  }

  lemma ChurnedThenAdded(k0: Kernel, k: Kernel, k': Kernel, mine: set<nat>, base: nat, band: Band)
    requires Churned(k0, k, mine, base, band) && Churned(k, k', {}, base, band)
    ensures Churned(k0, k', mine, base, band)
  {
  }

  lemma ClearedThenInstalled(k0: Kernel, k: Kernel, k': Kernel, ifaces: seq<Iface>, dropped: set<nat>, base: nat,
                             added: seq<Service>)
    requires Cleared(k0, k, ifaces, dropped) && Installed(k, k', ifaces, base, ServicePlan(added), Disrupted)
    ensures Exchanged(k0, k', ifaces, dropped, base, added)
  {
  }

  lemma {:induction false} NotedServices(built: seq<ServiceFilter>, base: nat, services: seq<Service>)
    requires ServicesNoted(built, base, services)
    ensures Services(built) == services
  {
    if services != [] {
      var n := |services| - 1;
      NotedServices(built[..n], base, services[..n]);
      assert built == built[..n] + [built[n]];
      ServicesConcat(built[..n], [built[n]]);
    }
  }

  /* ---------- deletion of listed services ---------- */

  // One turn of removeServiceFiltersInList.
  method RemoveService(tc: Tc, ifaces: seq<Iface>, list: seq<ServiceFilter>, s: Service)
    returns (ok: bool, left: seq<ServiceFilter>)
    requires tc.Valid() && tc.Logged() && (!tc.wrapped ==> tc.turn.Permits(Priorities(list)))
    modifies tc`kernel, tc`script, tc`record
    ensures tc.Valid() && tc.Logged() && OnlyCleared(old(tc.kernel), tc.kernel, Priorities(list))
    ensures Priorities(left) <= Priorities(list)
    ensures forall f :: f in left ==> f in list
    ensures multiset(Services(left)) == multiset(Services(list)) - multiset{s}
    ensures Ascending(list) ==> Ascending(left)
    ensures ok && Ascending(list) ==> Cleared(old(tc.kernel), tc.kernel, ifaces, Priorities(list) - Priorities(left))
    ensures old(tc.script) == [] ==> tc.script == []
    ensures old(Deletable(tc.script, tc.kernel, ifaces, list)) ==> ok
  {
    hide Cleared, OnlyCleared, Removed;
    ok, left := true, list;
    ClearedNothing(tc.kernel, ifaces, Priorities(list));
    var idx := IndexOf(Services(list), s);
    if idx < |list| {
      if Deletable(tc.script, tc.kernel, ifaces, list) {
        StillDeletable([], tc.kernel, tc.kernel, ifaces, list, idx, Priorities(list) - Priorities(list));
      }
      PermitsOne(tc, list, list[idx]);
      ok := tc.RemoveFilter(ifaces, list[idx].priority);
      assert list[idx] in list;
      OnlyClearedTrans(old(tc.kernel), old(tc.kernel), tc.kernel, Priorities(list), {list[idx].priority});
      left := RemoveAt(list, idx);
      assert Services(left) == RemoveAt(Services(list), idx);
      RemoveAtMultiset(Services(list), idx);
      if Ascending(list) {
        RemovedOneMore(list, idx);
        if ok {
          RemovedIsCleared(old(tc.kernel), tc.kernel, ifaces, list[idx].priority);
        }
      }
    } else {
      assert s !in Services(list);
    }
  }

  // removeServiceFiltersInList, called with two separate lists: one occurrence is deleted for each service
  // to remove that is found.
  method RemoveServices(tc: Tc, ifaces: seq<Iface>, list: seq<ServiceFilter>, toRemove: seq<Service>)
    returns (ok: bool, left: seq<ServiceFilter>)
    requires tc.Valid() && tc.Logged() && (!tc.wrapped ==> tc.turn.Permits(Priorities(list)))
    modifies tc`kernel, tc`script, tc`record
    ensures tc.Valid() && tc.Logged() && OnlyCleared(old(tc.kernel), tc.kernel, Priorities(list))
    ensures !ok ==> left == []
    ensures forall f :: f in left ==> f in list
    ensures ok ==> Deducted(list, toRemove, left)
    ensures Ascending(list) ==> Ascending(left)
    ensures ok && Ascending(list) ==> Cleared(old(tc.kernel), tc.kernel, ifaces, Priorities(list) - Priorities(left))
    ensures old(tc.script) == [] ==> tc.script == []
    ensures old(Deletable(tc.script, tc.kernel, ifaces, list)) ==> ok
  {
    hide Cleared, OnlyCleared, Priorities, Services, Ascending, Tc.Valid, Tc.Logged, Deletable, Deducted;
    DeductedNone(list);
    ok, left := true, list;
    ClearedNothing(tc.kernel, ifaces, Priorities(list));
    DeletableParts(tc.script, tc.kernel, ifaces, list);
    for n := 0 to |toRemove|
      invariant ok && tc.Valid() && tc.Logged() && OnlyCleared(old(tc.kernel), tc.kernel, Priorities(list))
      invariant Priorities(left) <= Priorities(list) && forall f :: f in left ==> f in list
      invariant Deducted(list, toRemove[..n], left)
      invariant Ascending(list) ==>
        Ascending(left) && Cleared(old(tc.kernel), tc.kernel, ifaces, Priorities(list) - Priorities(left))
      invariant old(tc.script) == [] ==> tc.script == []
      invariant old(Deletable(tc.script, tc.kernel, ifaces, list)) ==> Ascending(list)
    {
      assert toRemove[..n + 1] == toRemove[..n] + [toRemove[n]];
      ghost var k, before := tc.kernel, left;
      if old(Deletable(tc.script, tc.kernel, ifaces, list)) {
        LeftDeletable(old(tc.kernel), k, ifaces, list, left);
      }
      ok, left := RemoveService(tc, ifaces, left, toRemove[n]);
      OnlyClearedTrans(old(tc.kernel), k, tc.kernel, Priorities(list), Priorities(before));
      if !ok {
        NoneWantedYet(toRemove);
        return false, [];
      }
      DeductedMore(list, toRemove[..n], before, toRemove[n], left);
      if Ascending(list) {
        ClearedChain(old(tc.kernel), k, tc.kernel, ifaces, Priorities(list), Priorities(before), Priorities(left));
      }
    }
    assert toRemove[..|toRemove|] == toRemove;
  }

  // One occurrence less for each service removed.
  ghost predicate Deducted(list: seq<ServiceFilter>, removed: seq<Service>, left: seq<ServiceFilter>) {
    multiset(Services(left)) == multiset(Services(list)) - multiset(removed)
  }

  lemma DeductedNone(list: seq<ServiceFilter>)
    ensures Deducted(list, [], list)
  {
  }

  lemma DeductedMore(list: seq<ServiceFilter>, removed: seq<Service>, before: seq<ServiceFilter>, s: Service,
                     left: seq<ServiceFilter>)
    requires Deducted(list, removed, before) && multiset(Services(left)) == multiset(Services(before)) - multiset{s}
    ensures Deducted(list, removed + [s], left)
  {
    hide Services;
    assert multiset(removed + [s]) == multiset(removed) + multiset{s};
  }

  lemma DeletableParts(script: seq<bool>, k: Kernel, ifaces: seq<Iface>, list: seq<ServiceFilter>)
    ensures Deletable(script, k, ifaces, list) ==> script == [] && Ascending(list)
  {
  }

  lemma LeftDeletable(k: Kernel, k': Kernel, ifaces: seq<Iface>, list: seq<ServiceFilter>, left: seq<ServiceFilter>)
    requires Deletable([], k, ifaces, list) && Cleared(k, k', ifaces, Priorities(list) - Priorities(left))
    requires Ascending(left) && Priorities(left) <= Priorities(list)
    ensures Deletable([], k', ifaces, left)
  {
  }

  lemma ClearedChain(k: Kernel, k1: Kernel, k2: Kernel, ifaces: seq<Iface>, all: set<nat>, some: set<nat>,
                     few: set<nat>)
    requires Cleared(k, k1, ifaces, all - some) && Cleared(k1, k2, ifaces, some - few) && few <= some <= all
    ensures Cleared(k, k2, ifaces, all - few)
  {
  }

  lemma ClearedNothing(k: Kernel, ifaces: seq<Iface>, ps: set<nat>)
    ensures OnlyCleared(k, k, ps) && Cleared(k, k, ifaces, ps - ps)
  {
  }

  lemma RemovedIsCleared(k: Kernel, k': Kernel, ifaces: seq<Iface>, p: nat)
    requires Removed(k, k', ifaces, p)
    ensures Cleared(k, k', ifaces, {p})
  {
  }

  lemma RemovedOneMore(left: seq<ServiceFilter>, idx: nat)
    requires idx < |left| && Ascending(left)
    ensures Ascending(RemoveAt(left, idx))
    ensures Priorities(left) - Priorities(RemoveAt(left, idx)) == {left[idx].priority}
  {
    hide RemoveAt;
    RemoveAtIndex(left, idx);
    var shorter := RemoveAt(left, idx);
    forall p ensures p in Priorities(left) && p !in Priorities(shorter) <==> p == left[idx].priority {
      assert left[idx] in left;
      if p in Priorities(left) && p != left[idx].priority {
        var j :| 0 <= j < |left| && left[j].priority == p;
        assert shorter[if j < idx then j else j - 1] == left[j];
      }
    }
  }

  /* ---------- deletion of a list from itself ---------- */

  // arr is was with the element at idx taken out of the first m; position m - 1 keeps its old value.
  ghost predicate Shifted(was: seq<ServiceFilter>, arr: seq<ServiceFilter>, idx: nat, m: nat) {
    && |arr| == |was| && m <= |was|
    && (forall j {:trigger arr[j]} :: idx <= j < m - 1 ==> arr[j] == was[j + 1])
    && (forall j {:trigger arr[j]} :: 0 <= j < |was| && !(idx <= j < m - 1) ==> arr[j] == was[j])
  }

  // append(list[:idx], list[idx+1:]...) within the first m elements of the backing array.
  method ShiftLeft(a: array<ServiceFilter>, idx: nat, m: nat)
    requires idx < m <= a.Length
    modifies a
    ensures Shifted(old(a[..]), a[..], idx, m)
  {
    for j := idx to m - 1
      invariant Shifted(old(a[..]), a[..], idx, j + 1)
    {
      a[j] := a[j + 1];
    }
  }

  // Whether the filter at position j of a list of n outlives the deletion of the list from itself.
  predicate Survives(j: nat, n: nat) {
    j % 2 == 1 && j < n - 1
  }

  ghost predicate DistinctServices(s: seq<ServiceFilter>) {
    forall i, j :: 0 <= i < j < |s| ==> s[i].service != s[j].service
  }

  // The backing array before the k-th turn, for a list s without repeated services: every other element
  // has been skipped, and the vacated end repeats the last one.
  ghost predicate Skipping(s: seq<ServiceFilter>, arr: seq<ServiceFilter>, k: nat, m: nat, gone: set<nat>) {
    var n := |s|;
    && |arr| == n && m <= n
    && (forall j :: 0 <= j < m && j < k ==> 2 * j + 1 < n && arr[j] == s[2 * j + 1])
    && (forall j :: m <= j < n ==> arr[j] == s[n - 1])
    && (2 * k <= n + 1 ==>
          && m == n - k
          && (forall j :: k <= j < m ==> arr[j] == s[j + k])
          && (forall j :: 0 <= j < n ==> (s[j].priority in gone <==> j % 2 == 0 && j < 2 * k)))
    && (2 * k > n + 1 ==>
          && m == (n - 1) / 2
          && (forall j :: 0 <= j < n ==> (s[j].priority in gone <==> !Survives(j, n))))
  }

  // Position, among the first m, of the service read in the k-th turn; m when it is not found.
  ghost function Found(n: nat, k: nat, m: nat): int {
    if 2 * k < n then k else if 2 * k == n then m - 1 else m
  }

  lemma SkippingFound(s: seq<ServiceFilter>, arr: seq<ServiceFilter>, k: nat, m: nat, gone: set<nat>, idx: nat)
    requires DistinctServices(s) && Ascending(s) && Skipping(s, arr, k, m, gone) && k < |s|
    requires idx <= m && (idx < m ==> arr[idx].service == arr[k].service)
    requires forall j :: 0 <= j < idx ==> arr[j].service != arr[k].service
    ensures 2 * k <= |s| ==> idx < m && idx == Found(|s|, k, m) && arr[idx].priority !in gone
    ensures 2 * k > |s| ==> idx == m
  {
    var n := |s|;
    if 2 * k < n {
      assert arr[k] == s[2 * k];
    } else {
      assert arr[k] == s[n - 1];
      if 2 * k == n {
        assert arr[m - 1] == s[n - 1];
      }
    }
  }

  lemma SkippingStep(s: seq<ServiceFilter>, arr: seq<ServiceFilter>, arr': seq<ServiceFilter>, k: nat, m: nat,
                     gone: set<nat>)
    requires Ascending(s) && Skipping(s, arr, k, m, gone) && 2 * k < |s| && k < m
    requires Shifted(arr, arr', k, m)
    ensures Skipping(s, arr', k + 1, m - 1, gone + {arr[k].priority})
  {
    var n, gone' := |s|, gone + {arr[k].priority};
    assert arr[k] == s[2 * k];
    assert m - 1 + k == n - 1 && arr[m - 1] == s[m - 1 + k];
    assert forall j :: k <= j < m - 1 ==> arr'[j] == s[j + 1 + k];
    forall j | 0 <= j < n ensures s[j].priority in gone' <==> j % 2 == 0 && j < 2 * (k + 1) {
      assert s[j].priority == s[2 * k].priority <==> j == 2 * k;
    }
  }

  // The turn in the middle of a list of even length deletes the last filter.
  lemma SkippingMiddle(s: seq<ServiceFilter>, arr: seq<ServiceFilter>, arr': seq<ServiceFilter>, k: nat, m: nat,
                       gone: set<nat>)
    requires Ascending(s) && Skipping(s, arr, k, m, gone) && 2 * k == |s| && 0 < m
    requires Shifted(arr, arr', m - 1, m)
    ensures Skipping(s, arr', k + 1, m - 1, gone + {arr[m - 1].priority})
  {
    var n, gone' := |s|, gone + {arr[m - 1].priority};
    assert m == k && arr[m - 1] == s[n - 1];
    forall j | 0 <= j < n ensures s[j].priority in gone' <==> !Survives(j, n) {
      assert s[j].priority == s[n - 1].priority <==> j == n - 1;
    }
  }

  lemma SkippingIdle(s: seq<ServiceFilter>, arr: seq<ServiceFilter>, k: nat, m: nat, gone: set<nat>)
    requires Skipping(s, arr, k, m, gone) && 2 * k > |s|
    ensures Skipping(s, arr, k + 1, m, gone)
  {
  }

  lemma SkippingTurn(s: seq<ServiceFilter>, was: seq<ServiceFilter>, arr: seq<ServiceFilter>, k: nat, idx: nat,
                     m: nat, gone: set<nat>)
    requires Ascending(s) && k < |s| && |arr| == |was| == |s|
    requires 2 * k <= |s| ==> Skipping(s, was, k, m + 1, gone) && idx < m + 1 && idx == Found(|s|, k, m + 1)
    requires 2 * k <= |s| ==> Shifted(was, arr, idx, m + 1)
    requires 2 * k > |s| ==> Skipping(s, was, k, m, gone) && arr == was
    ensures Skipping(s, arr, k + 1, m, if 2 * k <= |s| then gone + {was[idx].priority} else gone)
  {
    hide Skipping;
    if 2 * k < |s| {
      SkippingStep(s, was, arr, k, m + 1, gone);
    } else if 2 * k == |s| {
      SkippingMiddle(s, was, arr, k, m + 1, gone);
    } else {
      SkippingIdle(s, was, k, m, gone);
    }
  }

  // removeServiceFiltersInList called with the same slice twice: the loop ranges over the array that the
  // deletions shift. With distinct services, exactly the filters at odd positions before the last one
  // are skipped; so everything is deleted if and only if there are at most two filters.
  method RemoveFromItself(tc: Tc, ifaces: seq<Iface>, a: array<ServiceFilter>) returns (ok: bool, gone: set<nat>)
    requires tc.Valid() && tc.Logged() && (!tc.wrapped ==> tc.turn.Permits(Priorities(a[..])))
    modifies a, tc`kernel, tc`script, tc`record
    ensures tc.Valid() && tc.Logged() && OnlyCleared(old(tc.kernel), tc.kernel, Priorities(old(a[..])))
    ensures ok ==> Cleared(old(tc.kernel), tc.kernel, ifaces, gone)
    ensures gone <= Priorities(old(a[..]))
    ensures forall j :: 0 <= j < a.Length ==> a[j] in old(a[..])
    ensures ok && DistinctServices(old(a[..])) && Ascending(old(a[..])) ==>
      && (forall j :: 0 <= j < a.Length ==> (old(a[..])[j].priority in gone <==> !Survives(j, a.Length)))
      && ((forall j :: 0 <= j < a.Length ==> old(a[..])[j].priority in gone) <==> a.Length <= 2)
    ensures ok && a.Length <= 2 ==> gone == Priorities(old(a[..]))
    ensures old(tc.script) == [] ==> tc.script == []
    ensures old(Deletable(tc.script, tc.kernel, ifaces, a[..])) ==> ok
  {
    hide Purging, Priorities, DistinctServices, Ascending, Survives, Deletable, Tc.Valid, Tc.Logged;
    ghost var s := a[..];
    ok, gone := true, {};
    var n: nat, m: nat := a.Length, a.Length;
    NothingGone(tc.kernel, ifaces, s);
    DeletableParts(tc.script, tc.kernel, ifaces, s);
    for k := 0 to n
      invariant ok && m <= n && tc.Valid() && tc.Logged()
      invariant Purging(old(tc.kernel), tc.kernel, ifaces, s, a[..], k, m, gone)
      invariant old(tc.script) == [] ==> tc.script == []
    {
      ok, m, gone := DropTurn(tc, ifaces, a, k, m, gone, s, old(tc.kernel));
      if !ok {
        PurgeStops(old(tc.kernel), tc.kernel, s, a[..], gone);
        return;
      }
    }
    PurgeEnds(old(tc.kernel), tc.kernel, ifaces, s, a[..], m, gone);
  }

  // Where the deletion of a list from itself stands before its k-th turn.
  ghost predicate Purging(k0: Kernel, kernel: Kernel, ifaces: seq<Iface>, s: seq<ServiceFilter>,
                          arr: seq<ServiceFilter>, k: nat, m: nat, gone: set<nat>)
  {
    && PurgedOnly(k0, kernel, s, arr, gone) && Cleared(k0, kernel, ifaces, gone)
    && (DistinctServices(s) && Ascending(s) ==> Skipping(s, arr, k, m, gone))
    && (Ascending(s) ==> Remaining(arr, m, gone)) && (|s| <= 2 ==> Short(s, arr, k, m, gone))
  }

  // The first m elements are the filters that remain.
  ghost predicate Remaining(arr: seq<ServiceFilter>, m: nat, gone: set<nat>) {
    && m <= |arr|
    && (forall a, b :: 0 <= a < b < m ==> arr[a].priority < arr[b].priority)
    && (forall j :: 0 <= j < m ==> arr[j].priority !in gone)
  }

  // In a list of at most two each turn deletes the first filter that is left.
  ghost predicate Short(s: seq<ServiceFilter>, arr: seq<ServiceFilter>, k: nat, m: nat, gone: set<nat>) {
    && |arr| == |s| && k <= |s| && m == |s| - k
    && (forall j :: 0 <= j < k ==> s[j].priority in gone)
    && (forall j :: 0 <= j < m ==> arr[j] == s[j + k])
    && (k < |s| ==> arr[k] == s[k])
  }

  lemma RemainingTurn(was: seq<ServiceFilter>, arr: seq<ServiceFilter>, idx: nat, m: nat, gone: set<nat>)
    requires Remaining(was, m, gone) && idx < m && Shifted(was, arr, idx, m)
    ensures Remaining(arr, m - 1, gone + {was[idx].priority})
  {
    forall j | 0 <= j < m - 1 ensures arr[j] == was[if j < idx then j else j + 1] {
    }
  }

  lemma ShortTurn(s: seq<ServiceFilter>, was: seq<ServiceFilter>, arr: seq<ServiceFilter>, k: nat, idx: nat, m: nat,
                  gone: set<nat>)
    requires |s| <= 2 && k < |s| && Short(s, was, k, m, gone)
    requires idx <= m && forall j :: 0 <= j < idx ==> was[j].service != was[k].service
    requires idx < m ==> Shifted(was, arr, idx, m)
    ensures idx < m && Short(s, arr, k + 1, m - 1, gone + {was[idx].priority})
  {
    assert was[0] == s[k] == was[k];
  }

  ghost predicate PurgedOnly(k0: Kernel, kernel: Kernel, s: seq<ServiceFilter>, arr: seq<ServiceFilter>,
                             gone: set<nat>)
  {
    && |arr| == |s| && OnlyCleared(k0, kernel, Priorities(s)) && gone <= Priorities(s)
    && forall f :: f in arr ==> f in s
  }

  // findServiceFilter on the first m elements of a slice.
  method FindFilter(a: array<ServiceFilter>, m: nat, s: Service) returns (idx: nat)
    requires m <= a.Length
    ensures idx <= m && (idx < m ==> a[..][idx].service == s)
    ensures forall j :: 0 <= j < idx ==> a[..][j].service != s
  {
    idx := 0;
    while idx < m && a[idx].service != s
      invariant idx <= m && forall j :: 0 <= j < idx ==> a[..][j].service != s
    {
      idx := idx + 1;
    }
  }

  method DropTurn(tc: Tc, ifaces: seq<Iface>, a: array<ServiceFilter>, k: nat, m: nat, gone: set<nat>,
                  ghost s: seq<ServiceFilter>, ghost k0: Kernel) returns (ok: bool, m': nat, gone': set<nat>)
    requires tc.Valid() && tc.Logged() && (!tc.wrapped ==> tc.turn.Permits(Priorities(s)))
    requires k < a.Length && m <= a.Length && Purging(k0, tc.kernel, ifaces, s, a[..], k, m, gone)
    modifies a, tc`kernel, tc`script, tc`record
    ensures tc.Valid() && tc.Logged() && m' <= a.Length && PurgedOnly(k0, tc.kernel, s, a[..], gone')
    ensures ok ==> Purging(k0, tc.kernel, ifaces, s, a[..], k + 1, m', gone')
    ensures old(tc.script) == [] ==> tc.script == []
    ensures old(tc.script) == [] && Deletable([], k0, ifaces, s) ==> ok
  {
    hide Cleared, OnlyCleared, Removed, Skipping, Priorities, DistinctServices, Ascending, Shifted, Found, Tc.Valid,
      Tc.Logged, Deletable, Remaining, Short;
    ok, m', gone' := true, m, gone;
    var idx := FindFilter(a, m, a[k].service);
    ghost var before, was := tc.kernel, a[..];
    if DistinctServices(s) && Ascending(s) {
      SkippingFound(s, was, k, m, gone, idx);
    }
    if idx < m {
      assert was[idx] in was;
      if Deletable([], k0, ifaces, s) {
        RemainingDeletable(k0, before, ifaces, s, was, idx, m, gone);
      }
      PermitsOne(tc, s, was[idx]);
      ok := tc.RemoveFilter(ifaces, a[idx].priority);
      MineCleared(k0, before, tc.kernel, s, was[idx]);
      if !ok {
        return;
      }
      ClearedOneMore(k0, before, tc.kernel, ifaces, gone, was[idx].priority);
      gone', m' := gone + {a[idx].priority}, m - 1;
      ShiftLeft(a, idx, m);
      ShiftedKeeps(was, a[..], idx, m);
      if Ascending(s) {
        RemainingTurn(was, a[..], idx, m, gone);
      }
    }
    if |s| <= 2 {
      ShortTurn(s, was, a[..], k, idx, m, gone);
    }
    if DistinctServices(s) && Ascending(s) {
      SkippingTurn(s, was, a[..], k, idx, m', gone);
    }
  }

  lemma RemainingDeletable(k0: Kernel, k: Kernel, ifaces: seq<Iface>, s: seq<ServiceFilter>, arr: seq<ServiceFilter>,
                           idx: nat, m: nat, gone: set<nat>)
    requires Deletable([], k0, ifaces, s) && Cleared(k0, k, ifaces, gone) && idx < m <= |arr| && arr[idx] in s
    requires Ascending(s) ==> Remaining(arr, m, gone)
    ensures Distinct(ifaces) && forall i :: i in ifaces ==> Lookup(k, i, arr[idx].priority).Some?
  {
    assert arr[idx].priority in Priorities(s);
  }

  lemma PurgeStops(k0: Kernel, kernel: Kernel, s: seq<ServiceFilter>, arr: seq<ServiceFilter>, gone: set<nat>)
    requires PurgedOnly(k0, kernel, s, arr, gone)
    ensures OnlyCleared(k0, kernel, Priorities(s)) && gone <= Priorities(s)
    ensures forall j :: 0 <= j < |arr| ==> arr[j] in s
  {
  }

  lemma PurgeEnds(k0: Kernel, kernel: Kernel, ifaces: seq<Iface>, s: seq<ServiceFilter>, arr: seq<ServiceFilter>,
                  m: nat, gone: set<nat>)
    requires Purging(k0, kernel, ifaces, s, arr, |s|, m, gone)
    ensures OnlyCleared(k0, kernel, Priorities(s)) && gone <= Priorities(s) && Cleared(k0, kernel, ifaces, gone)
    ensures forall j :: 0 <= j < |arr| ==> arr[j] in s
    ensures DistinctServices(s) && Ascending(s) ==>
      && (forall j :: 0 <= j < |s| ==> (s[j].priority in gone <==> !Survives(j, |s|)))
      && ((forall j :: 0 <= j < |s| ==> s[j].priority in gone) <==> |s| <= 2)
    ensures |s| <= 2 ==> gone == Priorities(s)
  {
    hide Cleared, OnlyCleared, Skipping, DistinctServices, Ascending;
    if DistinctServices(s) && Ascending(s) {
      SkippingEnd(s, arr, |s|, m, gone);
    }
  }

  lemma ShiftedKeeps(was: seq<ServiceFilter>, arr: seq<ServiceFilter>, idx: nat, m: nat)
    requires idx < m <= |was| && Shifted(was, arr, idx, m)
    ensures |arr| == |was| && forall f :: f in arr ==> f in was
  {
    forall j | 0 <= j < |arr| ensures arr[j] in was {
      if idx <= j < m - 1 {
        assert arr[j] == was[j + 1];
      }
    }
  }

  lemma NothingGone(k: Kernel, ifaces: seq<Iface>, s: seq<ServiceFilter>)
    ensures Purging(k, k, ifaces, s, s, 0, |s|, {})
  {
    ClearedNothing(k, ifaces, Priorities(s));
  }

  lemma MineCleared(k: Kernel, k1: Kernel, k2: Kernel, s: seq<ServiceFilter>, f: ServiceFilter)
    requires f in s && OnlyCleared(k, k1, Priorities(s)) && OnlyCleared(k1, k2, {f.priority})
    ensures OnlyCleared(k, k2, Priorities(s)) && f.priority in Priorities(s)
  {
    OnlyClearedTrans(k, k1, k2, Priorities(s), {f.priority});
  }

  lemma SkippingEnd(s: seq<ServiceFilter>, arr: seq<ServiceFilter>, n: nat, m: nat, gone: set<nat>)
    requires n == |s| && Skipping(s, arr, n, m, gone)
    ensures forall j :: 0 <= j < n ==> (s[j].priority in gone <==> !Survives(j, n))
    ensures (forall j :: 0 <= j < n ==> s[j].priority in gone) <==> n <= 2
  {
    if n > 2 {
      assert Survives(1, n) && s[1].priority !in gone;
    }
  }
}
