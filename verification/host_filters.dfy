// Filters for hosts and the watcher that follows their resolved IPs (injector/network_disruption.go,
// addFiltersForHosts and watchHostChanges). Answers of the resolver and the state of the injector's
// context are read off scripts that are left arbitrary.
module HostFilters {
  import opened DisruptionTypes
  import opened Selection
  import opened Text
  import opened TrafficControl

  datatype Host = Host(
    name: string, port: int, protocol: string, ingress: bool, connState: string, percentage: Option<int>)

  datatype TcFilter = TcFilter(ip: Ip, priority: nat)

  // network.AllProtocols
  function AllProtocols(name: string): seq<Protocol> {
    var p := ToLower(name);
    if p == "udp" then [UDP] else if p == "arp" then [ARP] else if p == "tcp" then [TCP] else [TCP, UDP]
  }

  function MatchFor(h: Host, ip: Ip, p: Protocol): Match {
    if h.ingress then Match(Some(ip), None, h.port, 0, p, h.connState)
    else Match(None, Some(ip), 0, h.port, p, h.connState)
  }

  // The filters a host asks for, in order: for each IP, one per protocol.
  function Plan(h: Host, ips: seq<Ip>): seq<(Ip, Match)> {
    if ips == [] then [] else
      var ip := ips[|ips| - 1];
      Plan(h, ips[..|ips| - 1]) + PlanOne(h, ip, AllProtocols(h.protocol))
  }

  function PlanOne(h: Host, ip: Ip, ps: seq<Protocol>): seq<(Ip, Match)> {
    seq(|ps|, j requires 0 <= j < |ps| => (ip, MatchFor(h, ip, ps[j])))
  }

  // k' is k with the plan installed at the priorities following base.
  ghost predicate Installed(k: Kernel, k': Kernel, ifaces: seq<Iface>, base: nat, plan: seq<(Ip, Match)>, band: Band) {
    forall i, q: nat :: Lookup(k', i, q) ==
      if base < q <= base + |plan| && i in ifaces then Some(Filter(plan[q - base - 1].1, band)) else Lookup(k, i, q)
  }

  // The ledger of an installed plan.
  ghost predicate Noted(list: seq<TcFilter>, base: nat, plan: seq<(Ip, Match)>) {
    |list| == |plan| && forall j :: 0 <= j < |plan| ==> list[j] == TcFilter(plan[j].0, base + 1 + j)
  }

  lemma InstalledSnoc(k: Kernel, k1: Kernel, k2: Kernel, ifaces: seq<Iface>, base: nat, plan: seq<(Ip, Match)>,
                      next: (Ip, Match), band: Band)
    requires Installed(k, k1, ifaces, base, plan, band)
    requires Added(k1, k2, ifaces, base + |plan| + 1, Filter(next.1, band))
    ensures Installed(k, k2, ifaces, base, plan + [next], band)
  {
  }

  // Whether n more priorities are to be had.
  predicate Room(last: nat, n: nat) {
    n == 0 || last + n < PRIORITY_LIMIT
  }

  // Some interface has a filter above base.
  ghost predicate Gained(k: Kernel, ifaces: seq<Iface>, base: nat) {
    exists i, q: nat :: i in ifaces && q > base && Lookup(k, i, q).Some?
  }

  // A beginning of a plan is installed and noted.
  ghost predicate Placed(k0: Kernel, k: Kernel, ifaces: seq<Iface>, base: nat, last: nat, plan: seq<(Ip, Match)>,
                         list: seq<TcFilter>, band: Band)
  {
    Installed(k0, k, ifaces, base, plan, band) && Noted(list, base, plan) && last == base + |list|
  }

  lemma PlacedNothing(k: Kernel, ifaces: seq<Iface>, base: nat, band: Band)
    ensures Placed(k, k, ifaces, base, base, [], [], band)
  {
  }

  lemma PlacedMore(k0: Kernel, k: Kernel, k': Kernel, ifaces: seq<Iface>, base: nat, last: nat,
                   plan: seq<(Ip, Match)>, list: seq<TcFilter>, next: (Ip, Match), band: Band)
    requires Placed(k0, k, ifaces, base, last, plan, list, band)
    requires Added(k, k', ifaces, last + 1, Filter(next.1, band))
    ensures Placed(k0, k', ifaces, base, last + 1, plan + [next], list + [TcFilter(next.0, last + 1)], band)
  {
    InstalledSnoc(k0, k, k', ifaces, base, plan, next, band);
  }

  lemma PlacedChurned(k0: Kernel, k: Kernel, k': Kernel, ifaces: seq<Iface>, base: nat, last: nat,
                      plan: seq<(Ip, Match)>, list: seq<TcFilter>, p: nat, f: Filter)
    requires Placed(k0, k, ifaces, base, last, plan, list, f.band) && p == last + 1
    requires forall i, q: nat :: Lookup(k0, i, q).Some? ==> q <= base
    requires forall i, q: nat :: q != p ==> Lookup(k', i, q) == Lookup(k, i, q)
    requires forall i :: Lookup(k', i, p).Some? ==> Lookup(k', i, p) == Some(f)
    ensures Churned(k0, k', {}, base, f.band)
  {
  }

  lemma PlacedDone(k0: Kernel, k: Kernel, ifaces: seq<Iface>, base: nat, last: nat, plan: seq<(Ip, Match)>,
                   list: seq<TcFilter>, band: Band)
    requires Placed(k0, k, ifaces, base, last, plan, list, band)
    requires forall i, q: nat :: Lookup(k0, i, q).Some? ==> q <= base
    ensures Installed(k0, k, ifaces, base, plan, band) && Noted(list, base, plan) && last == base + |list|
    ensures |list| == |plan| && Churned(k0, k, {}, base, band)
    ensures ifaces != [] ==> (Gained(k, ifaces, base) <==> plan != [])
  {
    if ifaces != [] && plan != [] {
      assert ifaces[0] in ifaces && Lookup(k, ifaces[0], base + 1).Some?;
    }
  }

  lemma {:induction false} PlanLonger(h: Host, ips: seq<Ip>, n: nat)
    requires n < |ips|
    ensures |Plan(h, ips[..n])| + |AllProtocols(h.protocol)| <= |Plan(h, ips)|
    decreases |ips|
  {
    hide AllProtocols;
    var init := ips[..|ips| - 1];
    if n < |init| {
      PlanLonger(h, init, n);
      assert init[..n] == ips[..n];
    } else {
      assert ips[..n] == init;
    }
  }

  lemma PlanStep(h: Host, ip: Ip, ps: seq<Protocol>, m: nat)
    requires m < |ps|
    ensures PlanOne(h, ip, ps[..m + 1]) == PlanOne(h, ip, ps[..m]) + [(ip, MatchFor(h, ip, ps[m]))]
    ensures PlanOne(h, ip, ps[..0]) == [] && PlanOne(h, ip, ps[..|ps|]) == PlanOne(h, ip, ps)
  {
    assert ps[..|ps|] == ps;
  }

  // The two inner loops of addFiltersForHosts. Without tc failures they succeed exactly when there is room for the
  // whole plan, and a failure leaves no filter exactly when there was no room for one.
  method InstallHost(tc: Tc, ifaces: seq<Iface>, h: Host, ips: seq<Ip>, band: Band)
    returns (ok: bool, list: seq<TcFilter>)
    requires tc.Valid() && tc.Logged() && (tc.turn.on ==> band == Disrupted)
    modifies tc
    ensures tc.Valid() && tc.Logged() && (old(tc.wrapped) ==> tc.wrapped)
    ensures !tc.wrapped ==> old(tc.last) <= tc.last && Churned(old(tc.kernel), tc.kernel, {}, old(tc.last), band)
    ensures !tc.wrapped && ok ==>
      && Installed(old(tc.kernel), tc.kernel, ifaces, old(tc.last), Plan(h, ips), band)
      && Noted(list, old(tc.last), Plan(h, ips)) && tc.last == old(tc.last) + |list|
    ensures Counted(old(tc.wrapped), old(tc.last), tc.wrapped, tc.last, if ok then 0 else 1)
    ensures old(tc.script) == [] ==> tc.script == []
    ensures !tc.wrapped && old(tc.script) == [] ==> (ok <==> Room(old(tc.last), |Plan(h, ips)|))
    ensures !tc.wrapped && old(tc.script) == [] && !ok && ifaces != [] ==>
      (Gained(tc.kernel, ifaces, old(tc.last)) <==> Room(old(tc.last), 1))
  {
    hide Placed, Installed, Noted, Churned, Gained, Plan, PlanOne, AllProtocols, Added, Tc.Valid, Tc.Logged;
    ok, list := true, [];
    var ps := AllProtocols(h.protocol);
    ghost var k0, base := tc.kernel, tc.last;
    tc.Bounded();
    PlacedNothing(k0, ifaces, base, band);
    PlanNothing(h);
    assert ips[..0] == [];
    for n := 0 to |ips|
      invariant ok && tc.Valid() && tc.Logged() && (old(tc.wrapped) ==> tc.wrapped)
      invariant !tc.wrapped ==> Placed(k0, tc.kernel, ifaces, base, tc.last, Plan(h, ips[..n]), list, band)
      invariant old(tc.script) == [] ==> tc.script == []
      invariant !tc.wrapped && old(tc.script) == [] ==> Room(base, |list|)
      invariant Counted(old(tc.wrapped), base, tc.wrapped, tc.last, 0)
    {
      PlanNext(h, ips, n);
      for m := 0 to |ps|
        invariant ok && tc.Valid() && tc.Logged() && (old(tc.wrapped) ==> tc.wrapped)
        invariant !tc.wrapped ==>
          Placed(k0, tc.kernel, ifaces, base, tc.last, Plan(h, ips[..n]) + PlanOne(h, ips[n], ps[..m]), list, band)
        invariant old(tc.script) == [] ==> tc.script == []
        invariant !tc.wrapped && old(tc.script) == [] ==> Room(base, |list|)
        invariant Counted(old(tc.wrapped), base, tc.wrapped, tc.last, 0)
      {
        ghost var plan, k, last := Plan(h, ips[..n]) + PlanOne(h, ips[n], ps[..m]), tc.kernel, tc.last;
        PlanStep(h, ips[n], ps, m);
        assert Plan(h, ips[..n]) + PlanOne(h, ips[n], ps[..m + 1]) == plan + [(ips[n], MatchFor(h, ips[n], ps[m]))];
        var p := tc.AddFilter(ifaces, Filter(MatchFor(h, ips[n], ps[m]), band));
        if p.None? {
          ok := false;
          if !tc.wrapped {
            PlacedDone(k0, k, ifaces, base, last, plan, list, band);
            PlacedChurned(k0, k, tc.kernel, ifaces, base, last, plan, list, tc.last,
              Filter(MatchFor(h, ips[n], ps[m]), band));
            PlanLonger(h, ips, n);
            PlanOneLength(h, ips[n], ps[..m]);
          }
          return;
        }
        if !tc.wrapped {
          PlacedMore(k0, k, tc.kernel, ifaces, base, last, plan, list, (ips[n], MatchFor(h, ips[n], ps[m])), band);
        }
        list := list + [TcFilter(ips[n], p.value)];
      }
    }
    assert ips[..|ips|] == ips;
    if !tc.wrapped {
      PlacedDone(k0, tc.kernel, ifaces, base, tc.last, Plan(h, ips), list, band);
    }
  }

  lemma PlanNothing(h: Host)
    ensures Plan(h, []) == []
  {
  }

  lemma PlanNext(h: Host, ips: seq<Ip>, n: nat)
    requires n < |ips|
    ensures var ps := AllProtocols(h.protocol);
      && Plan(h, ips[..n]) + PlanOne(h, ips[n], ps[..0]) == Plan(h, ips[..n])
      && Plan(h, ips[..n]) + PlanOne(h, ips[n], ps[..|ps|]) == Plan(h, ips[..n + 1])
  {
    hide AllProtocols;
    assert ips[..n + 1][..n] == ips[..n];
    assert AllProtocols(h.protocol)[..|AllProtocols(h.protocol)|] == AllProtocols(h.protocol);
  }

  lemma PlanOneLength(h: Host, ip: Ip, ps: seq<Protocol>)
    ensures |PlanOne(h, ip, ps)| == |ps|
  {
  }

  function Ips(list: seq<TcFilter>): set<Ip> {
    set f | f in list :: f.ip
  }

  // The comparison of watchHostChanges. A host is left alone exactly when the resolver returned the IPs
  // of its filters, each once.
  method NeedsUpdate(current: seq<TcFilter>, newIps: seq<Ip>) returns (changed: bool)
    ensures !changed <==> Ips(current) == Elements(newIps) && Distinct(newIps)
  {
    var oldIps: seq<Ip> := [];
    for n := 0 to |current|
      invariant Distinct(oldIps) && Elements(oldIps) == Ips(current[..n])
      invariant Elements(oldIps) <= Elements(newIps)
    {
      var ip := current[n].ip;
      assert current[n] in current;
      assert Ips(current[..n + 1]) == Ips(current[..n]) + {ip} by {
        assert current[..n + 1] == current[..n] + [current[n]];
      }
      if ip !in newIps {
        assert ip in Ips(current) && ip !in Elements(newIps);
        return true;
      }
      if ip !in oldIps {
        ElementsSnoc(oldIps, ip);
        oldIps := oldIps + [ip];
      } else {
        assert ip in Elements(oldIps);
      }
    }
    assert current[..|current|] == current;
    changed := |newIps| != |oldIps|;
    DistinctCount(oldIps);
    CountBounded(newIps);
    SubsetCount(Elements(oldIps), Elements(newIps));
    if Distinct(newIps) {
      DistinctCount(newIps);
    }
  }

  function Prios(list: seq<TcFilter>): set<nat> {
    set f | f in list :: f.priority
  }

  ghost predicate Fits(h: Host, ip: Ip, f: Filter, band: Band) {
    f.band == band && exists p :: p in AllProtocols(h.protocol) && f.m == MatchFor(h, ip, p)
  }

  ghost predicate Increasing(list: seq<TcFilter>) {
    forall a, b :: 0 <= a < b < |list| ==> list[a].priority < list[b].priority
  }

  // The list names the filters of the host that are live, and nothing else: `owner` tells for which host
  // a priority was asked.
  ghost predicate HostLive(k: Kernel, ifaces: seq<Iface>, h: Host, list: seq<TcFilter>, owner: map<nat, Host>,
                           band: Band)
  {
    && Increasing(list)
    && (forall f :: f in list ==> f.priority in owner && owner[f.priority] == h)
    && (forall f, i :: f in list && i in ifaces ==>
          Lookup(k, i, f.priority).Some? && Fits(h, f.ip, Lookup(k, i, f.priority).value, band))
    && (forall p, i :: p in owner && owner[p] == h && i in ifaces && Lookup(k, i, p).Some? ==> p in Prios(list))
  }

  lemma {:induction false} PlanFits(h: Host, ips: seq<Ip>, j: nat, band: Band)
    requires j < |Plan(h, ips)|
    ensures Fits(h, Plan(h, ips)[j].0, Filter(Plan(h, ips)[j].1, band), band)
    decreases |ips|
  {
    var rest, ps := ips[..|ips| - 1], AllProtocols(h.protocol);
    if j < |Plan(h, rest)| {
      PlanFits(h, rest, j, band);
    } else {
      assert ps[j - |Plan(h, rest)|] in ps;
    }
  }

  // A host that was just installed is live.
  lemma InstalledIsLive(k: Kernel, k': Kernel, ifaces: seq<Iface>, h: Host, ips: seq<Ip>, list: seq<TcFilter>,
                        base: nat, owner: map<nat, Host>, band: Band)
    requires Installed(k, k', ifaces, base, Plan(h, ips), band) && Noted(list, base, Plan(h, ips))
    requires forall p :: p in owner && owner[p] == h <==> base < p <= base + |list|
    ensures HostLive(k', ifaces, h, list, owner, band)
  {
    var plan := Plan(h, ips);
    forall f, i | f in list && i in ifaces
      ensures Lookup(k', i, f.priority).Some? && Fits(h, f.ip, Lookup(k', i, f.priority).value, band)
    {
      var j :| 0 <= j < |list| && list[j] == f;
      PlanFits(h, ips, j, band);
    }
    forall p | p in owner && owner[p] == h ensures p in Prios(list) {
      assert list[p - base - 1] in list;
    }
  }

  // Nothing that happens at other priorities matters to a live host.
  lemma HostLiveFrame(k: Kernel, k': Kernel, ifaces: seq<Iface>, h: Host, list: seq<TcFilter>, owner: map<nat, Host>,
                      owner': map<nat, Host>, band: Band)
    requires HostLive(k, ifaces, h, list, owner, band)
    requires forall p :: p in owner && owner[p] == h <==> p in owner' && owner'[p] == h
    requires forall p, i :: p in owner && owner[p] == h ==> Lookup(k', i, p) == Lookup(k, i, p)
    ensures HostLive(k', ifaces, h, list, owner', band)
  {
  }

  // The priorities from base (excluded) to last were asked for h.
  ghost function Give(asked: map<nat, Host>, base: nat, last: nat, h: Host): (r: map<nat, Host>)
    ensures forall p: nat :: p in r <==> p in asked || base < p <= last
    ensures forall p: nat :: p in r ==> r[p] == if base < p <= last then h else asked[p]
  {
    if last <= base then asked else Give(asked, base, last - 1, h)[last := h]
  }

  // Every priority above base that holds a filter was asked, for one of the hosts.
  ghost predicate Accounted(k: Kernel, asked: map<nat, Host>, base: nat, last: nat, hosts: seq<Host>) {
    && base <= last
    && (forall p :: p in asked ==> base < p <= last && asked[p] in hosts)
    && (forall i, q: nat :: q > base && Lookup(k, i, q).Some? ==> q in asked)
  }

  ghost predicate AllLive(k: Kernel, ifaces: seq<Iface>, ledger: map<Host, seq<TcFilter>>, owner: map<nat, Host>,
                          band: Band)
  {
    forall h :: h in ledger ==> HostLive(k, ifaces, h, ledger[h], owner, band)
  }

  ghost predicate ExactFor(k: Kernel, ifaces: seq<Iface>, filters: map<Host, seq<TcFilter>>, owner: map<nat, Host>) {
    AllLive(k, ifaces, filters, owner, Disrupted) && forall p :: p in owner ==> owner[p] in filters
  }

  ghost predicate Known(ledger: map<Host, seq<TcFilter>>, owner: map<nat, Host>) {
    forall h, f :: h in ledger && f in ledger[h] ==> f.priority in owner
  }

  // Installing one more host keeps the others live.
  lemma OneMoreHost(k: Kernel, k': Kernel, ifaces: seq<Iface>, ledger: map<Host, seq<TcFilter>>,
                    asked: map<nat, Host>, h: Host, ips: seq<Ip>, list: seq<TcFilter>, base0: nat, base: nat,
                    hosts: seq<Host>, band: Band)
    requires AllLive(k, ifaces, ledger, asked, band) && Accounted(k, asked, base0, base, hosts) && h !in hosts
    requires h !in ledger
    requires Installed(k, k', ifaces, base, Plan(h, ips), band) && Noted(list, base, Plan(h, ips))
    ensures AllLive(k', ifaces, ledger[h := list], Give(asked, base, base + |list|, h), band)
  {
    var asked' := Give(asked, base, base + |list|, h);
    InstalledIsLive(k, k', ifaces, h, ips, list, base, asked', band);
    forall g | g in ledger ensures HostLive(k', ifaces, g, ledger[g], asked', band) {
      HostLiveFrame(k, k', ifaces, g, ledger[g], asked, asked', band);
    }
  }

  lemma KnownGrows(ledger: map<Host, seq<TcFilter>>, asked: map<nat, Host>, h: Host, list: seq<TcFilter>, base: nat,
                   plan: seq<(Ip, Match)>)
    requires Known(ledger, asked) && Noted(list, base, plan)
    ensures Known(ledger[h := list], Give(asked, base, base + |list|, h))
  {
  }

  // What addFiltersForHosts has done after serving some hosts.
  ghost predicate Grown(k0: Kernel, k: Kernel, ifaces: seq<Iface>, hosts: seq<Host>, ledger: map<Host, seq<TcFilter>>,
                        asked: map<nat, Host>, base: nat, last: nat, band: Band)
  {
    && Churned(k0, k, {}, base, band)
    && Accounted(k, asked, base, last, hosts)
    && Known(ledger, asked)
    && (Distinct(hosts) ==> AllLive(k, ifaces, ledger, asked, band))
  }

  lemma GrownStart(k: Kernel, last: nat, ifaces: seq<Iface>, band: Band)
    requires forall i, q: nat :: Lookup(k, i, q).Some? ==> q <= last
    ensures Grown(k, k, ifaces, [], map[], map[], last, last, band)
  {
  }

  lemma GrownByHost(k0: Kernel, k: Kernel, k': Kernel, ifaces: seq<Iface>, hosts: seq<Host>,
                    ledger: map<Host, seq<TcFilter>>, asked: map<nat, Host>, base0: nat, base: nat, h: Host,
                    ips: seq<Ip>, list: seq<TcFilter>, band: Band)
    requires Grown(k0, k, ifaces, hosts, ledger, asked, base0, base, band) && ledger.Keys == Elements(hosts)
    requires Churned(k, k', {}, base, band)
    requires forall i, q: nat :: Lookup(k', i, q).Some? ==> q <= base + |list|
    requires Installed(k, k', ifaces, base, Plan(h, ips), band) && Noted(list, base, Plan(h, ips))
    ensures Grown(k0, k', ifaces, hosts + [h], ledger[h := list], Give(asked, base, base + |list|, h), base0,
      base + |list|, band)
  {
    hide Installed, Churned, HostLive, AllLive, Accounted, Known, Noted, Distinct, Elements, Give, Plan, Lookup;
    AccountedOrder(k, asked, base0, base, hosts);
    ElementsSnoc(hosts, h);
    ChurnedMore(k0, k, k', base0, base, band);
    AccountedGrows(k, k', asked, base0, base, base + |list|, hosts, h, hosts + [h], band);
    KnownGrows(ledger, asked, h, list, base, Plan(h, ips));
    AllLiveSnoc(k, k', ifaces, hosts, ledger, asked, base0, base, h, ips, list, band);
  }

  lemma AllLiveSnoc(k: Kernel, k': Kernel, ifaces: seq<Iface>, hosts: seq<Host>, ledger: map<Host, seq<TcFilter>>,
                    asked: map<nat, Host>, base0: nat, base: nat, h: Host, ips: seq<Ip>, list: seq<TcFilter>,
                    band: Band)
    requires Distinct(hosts) ==> AllLive(k, ifaces, ledger, asked, band)
    requires Accounted(k, asked, base0, base, hosts) && ledger.Keys == Elements(hosts)
    requires Installed(k, k', ifaces, base, Plan(h, ips), band) && Noted(list, base, Plan(h, ips))
    ensures Distinct(hosts + [h]) ==> AllLive(k', ifaces, ledger[h := list], Give(asked, base, base + |list|, h), band)
  {
    hide Installed, HostLive, AllLive, Accounted, Noted, Plan, Lookup;
    if Distinct(hosts + [h]) {
      DistinctSnoc(hosts, h);
      assert h !in Elements(hosts);
      OneMoreHost(k, k', ifaces, ledger, asked, h, ips, list, base0, base, hosts, band);
    }
  }

  // A host that could not be served in full leaves its filters behind, unrecorded.
  lemma GrownInVain(k0: Kernel, k: Kernel, k': Kernel, ifaces: seq<Iface>, hosts: seq<Host>,
                    ledger: map<Host, seq<TcFilter>>, asked: map<nat, Host>, base0: nat, base: nat, last: nat,
                    h: Host, all: seq<Host>, band: Band)
    requires Grown(k0, k, ifaces, hosts, ledger, asked, base0, base, band)
    requires Churned(k, k', {}, base, band) && base <= last && Elements(hosts) + {h} <= Elements(all)
    requires forall i, q: nat :: Lookup(k', i, q).Some? ==> q <= last
    ensures Grown(k0, k', ifaces, all, map[], Give(asked, base, last, h), base0, last, band)
  {
    hide Churned;
    ChurnedMore(k0, k, k', base0, base, band);
    AccountedGrows(k, k', asked, base0, base, last, hosts, h, all, band);
  }

  lemma AccountedOrder(k: Kernel, asked: map<nat, Host>, base: nat, last: nat, hosts: seq<Host>)
    requires Accounted(k, asked, base, last, hosts)
    ensures base <= last
  {
  }

  lemma AccountedGrows(k: Kernel, k': Kernel, asked: map<nat, Host>, base0: nat, base: nat, last: nat,
                       hosts: seq<Host>, h: Host, more: seq<Host>, band: Band)
    requires Accounted(k, asked, base0, base, hosts) && Churned(k, k', {}, base, band) && base <= last
    requires Elements(hosts) + {h} <= Elements(more)
    requires forall i, q: nat :: Lookup(k', i, q).Some? ==> q <= last
    ensures Accounted(k', Give(asked, base, last, h), base0, last, more)
  {
    assert forall g :: g in hosts || g == h ==> g in Elements(more);
  }
}
