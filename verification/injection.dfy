// A whole network injection (injector/network_disruption.go, the filter part of applyOperations, then any
// events of its watchers): packets that a safeguard or an allowed host spares are spared throughout.
module NetworkInjection {
  import opened DisruptionTypes
  import opened TrafficControl
  import opened HostFilters
  import opened HostWatching
  import opened ServiceFilters
  import opened ServiceWatching

  const METADATA_IP: Ip := "169.254.169.254/32"
  const ANYWHERE: Ip := "0.0.0.0/0"
  const SSH_PORT := 22

  datatype Route = Route(link: Iface, gateway: Ip)

  datatype WatchedService = WatchedService(name: string, percentage: Option<int>, ports: seq<ServicePort>)

  // A service that could not be read is None.
  datatype NetworkSpec = NetworkSpec(
    level: Level, routes: seq<Route>, nodeIp: Ip, allowed: seq<Host>, hosts: seq<Host>,
    services: seq<Option<WatchedService>>)

  datatype Guard = Guard(ifaces: seq<Iface>, m: Match)

  datatype Event = HostTick | ServiceChange(index: nat, service: ServiceEvent) | PodChange(index: nat, pod: PodEvent)

  function To(ip: Ip): Match {
    Match(None, Some(ip), 0, 0, TCP, "")
  }

  // The filters that keep probes and operators connected, in the order they are added.
  function Safeguards(spec: NetworkSpec, ifaces: seq<Iface>): seq<Guard> {
    match spec.level
    case PodLevel =>
      seq(|spec.routes|, j requires 0 <= j < |spec.routes| => Guard([spec.routes[j].link], To(spec.routes[j].gateway)))
        + [Guard(ifaces, To(spec.nodeIp))]
    case NodeLevel =>
      [Guard(ifaces, Match(None, None, SSH_PORT, 0, TCP, "")),
       Guard(ifaces, Match(None, None, 0, 0, ARP, "")),
       Guard(ifaces, To(METADATA_IP))]
  }

  // The guards hold the priorities following base.
  ghost predicate Guarded(k: Kernel, guards: seq<Guard>, base: nat) {
    forall j, i :: 0 <= j < |guards| && i in guards[j].ifaces ==>
      Lookup(k, i, base + 1 + j) == Some(Filter(guards[j].m, Spared))
  }

  // The filter is the j-th guard, on one of its interfaces.
  ghost predicate IsGuard(guards: seq<Guard>, j: int, k: Kernel, i: Iface, q: nat) {
    0 <= j < |guards| && i in guards[j].ifaces && Lookup(k, i, q).Some? && Lookup(k, i, q).value.m == guards[j].m
  }

  // There is no filter but the guards.
  ghost predicate OnlyGuards(k: Kernel, guards: seq<Guard>, base: nat) {
    forall i, q: nat :: Lookup(k, i, q).Some? ==> base < q <= base + |guards| && IsGuard(guards, q - base - 1, k, i, q)
  }

  ghost predicate AllSpared(k: Kernel) {
    forall i, q: nat :: Lookup(k, i, q).Some? ==> Lookup(k, i, q).value.band == Spared
  }

  lemma GuardedSnoc(k: Kernel, k': Kernel, guards: seq<Guard>, base: nat, n: nat)
    requires n < |guards| && Guarded(k, guards[..n], base) && AllSpared(k) && OnlyGuards(k, guards[..n], base)
    requires TrafficControl.Added(k, k', guards[n].ifaces, base + 1 + n, Filter(guards[n].m, Spared))
    ensures Guarded(k', guards[..n + 1], base) && AllSpared(k') && OnlyGuards(k', guards[..n + 1], base)
  {
  }

  // Adding filters above the guards leaves them in place.
  lemma GuardedChurned(k: Kernel, k': Kernel, guards: seq<Guard>, base: nat, last: nat, band: Band)
    requires Guarded(k, guards, base) && Churned(k, k', {}, last, band) && base + |guards| <= last
    ensures Guarded(k', guards, base)
  {
  }

  lemma AllSparedChurned(k: Kernel, k': Kernel, last: nat)
    requires AllSpared(k) && Churned(k, k', {}, last, Spared)
    ensures AllSpared(k')
  {
  }

  // Up to the boundary the table is the one that was sealed; above it, every filter disrupts.
  ghost predicate Sealed(k: Kernel, k0: Kernel, boundary: nat) {
    && Layered(k, boundary) && (forall i, q: nat :: Lookup(k0, i, q).Some? ==> q <= boundary)
    && (forall i, q: nat :: q <= boundary ==> Lookup(k, i, q) == Lookup(k0, i, q))
  }

  lemma SealedNow(k: Kernel, boundary: nat)
    requires AllSpared(k) && forall i, q: nat :: Lookup(k, i, q).Some? ==> q <= boundary
    ensures Sealed(k, k, boundary)
  {
  }

  // A watcher that was given priorities above the boundary only cannot break the seal.
  lemma SealedChurned(k: Kernel, k': Kernel, k0: Kernel, boundary: nat, mine: set<nat>, base: nat)
    requires Sealed(k, k0, boundary) && boundary <= base && (forall p :: p in mine ==> p > boundary)
    requires Churned(k, k', mine, base, Disrupted)
    ensures Sealed(k', k0, boundary)
  {
  }

  // What the seal is for: a packet that a filter of the sealed table matches is spared.
  lemma SealedPacketSpared<P(!new)>(k: Kernel, k0: Kernel, boundary: nat, i: Iface, p: nat, pkt: P,
                                    matches: (Match, P) -> bool)
    returns (first: nat)
    requires Sealed(k, k0, boundary) && p <= boundary && Hit(k0, i, p, pkt, matches)
    ensures FirstHit(k, i, first, pkt, matches) && Lookup(k, i, first).value.band == Spared
  {
    assert Hit(k, i, p, pkt, matches);
    first := SparedPacketIsSpared(k, boundary, i, p, pkt, matches);
  }

  lemma GuardedPacketSpared<P(!new)>(k: Kernel, k0: Kernel, boundary: nat, guards: seq<Guard>, base: nat, j: nat,
                                     i: Iface, pkt: P, matches: (Match, P) -> bool) returns (first: nat)
    requires Sealed(k, k0, boundary) && Guarded(k0, guards, base) && base + |guards| <= boundary
    requires j < |guards| && i in guards[j].ifaces && matches(guards[j].m, pkt)
    ensures FirstHit(k, i, first, pkt, matches) && Lookup(k, i, first).value.band == Spared
  {
    assert Lookup(k0, i, base + 1 + j) == Some(Filter(guards[j].m, Spared));
    first := SealedPacketSpared(k, k0, boundary, i, base + 1 + j, pkt, matches);
  }

  // Whatever the narrowing of the host's answer, it keeps this IP.
  ghost predicate KeepsIp(h: Host, hash: (string, Ip) -> nat, answer: Option<seq<Ip>>, ip: Ip) {
    answer.Some? && forall ips :: Narrowed(h, hash, answer.value, ips) ==> ip in ips
  }

  // The narrowing of the answer leaves no choice: there is no percentage, or no two IPs have the same hash.
  ghost predicate Definite(h: Host, hash: (string, Ip) -> nat, answer: Option<seq<Ip>>) {
    h.percentage.Some? && h.percentage.value < 100 && answer.Some? ==>
      Distinct(answer.value) && Selection.DistinctHashes(Elements(answer.value), Seeded(hash, h.name))
  }

  // Which IPs are kept: all of them without a percentage, else the share of least hashes.
  lemma KeptIp(h: Host, hash: (string, Ip) -> nat, answer: Option<seq<Ip>>, ips: seq<Ip>, ip: Ip)
    requires answer.Some? && Definite(h, hash, answer) && Narrowed(h, hash, answer.value, ips)
    ensures KeepsIp(h, hash, answer, ip) <==> ip in ips
    ensures MayKeepIp(h, hash, answer, ip) <==> ip in ips
    ensures ip in ips <==>
      if h.percentage.Some? && h.percentage.value < 100
      then ip in Selection.Share(Elements(answer.value), Seeded(hash, h.name), h.percentage.value)
      else ip in answer.value
  {
    hide Selection.Share, Selection.DistinctHashes;
    forall other | Narrowed(h, hash, answer.value, other) ensures ip in other <==> ip in ips {
      assert ip in other <==> ip in Elements(other);
      assert ip in ips <==> ip in Elements(ips);
    }
  }

  // Packets of any protocol of an allowed host that was covered, from or to one of its IPs.
  lemma AllowedPacketSpared<P(!new)>(k: Kernel, k0: Kernel, boundary: nat, ifaces: seq<Iface>, h: Host,
                                     hash: (string, Ip) -> nat, answer: Option<seq<Ip>>, ip: Ip, p: Protocol,
                                     i: Iface, pkt: P, matches: (Match, P) -> bool)
    returns (first: nat)
    requires Sealed(k, k0, boundary) && Covered(h, hash, answer, k0, ifaces, Spared)
    requires KeepsIp(h, hash, answer, ip) && p in AllProtocols(h.protocol) && i in ifaces
    requires matches(MatchFor(h, ip, p), pkt)
    ensures FirstHit(k, i, first, pkt, matches) && Lookup(k, i, first).value.band == Spared
  {
    hide Narrowed;
    var ips :| Narrowed(h, hash, answer.value, ips) && Covers(k0, ifaces, h, Elements(ips), Spared);
    assert ip in Elements(ips);
    assert HasFilter(k0, i, Filter(MatchFor(h, ip, p), Spared));
    var q: nat :| Lookup(k0, i, q) == Some(Filter(MatchFor(h, ip, p), Spared));
    first := SealedPacketSpared(k, k0, boundary, i, q, pkt, matches);
  }

  // Nobody else is spared: a filter that spares a packet is a guard on that interface or is for an IP of a covered
  // host.
  lemma OthersNotSpared<P(!new)>(k: Kernel, k0: Kernel, boundary: nat, ifaces: seq<Iface>, guards: seq<Guard>,
                                 base: nat, hosts: seq<Host>, n: nat, hash: (string, Ip) -> nat,
                                 answers: seq<Option<seq<Ip>>>, i: Iface, q: nat, pkt: P, matches: (Match, P) -> bool)
    requires Sealed(k, k0, boundary) && SparesOnly(k0, ifaces, guards, base, hosts, n, hash, answers)
    requires Hit(k, i, q, pkt, matches) && Lookup(k, i, q).value.band == Spared
    ensures GuardMatches(guards, i, pkt, matches) ||
      (i in ifaces && AllowedMayMatch(hosts, n, hash, answers, pkt, matches))
  {
    hide MayKeepIp;
    assert Lookup(k, i, q) == Lookup(k0, i, q);
    if q > base + |guards| {
      var j :| 0 <= j < n && ForHost(hosts[j], hash, Answer(answers, j), Lookup(k0, i, q).value.m);
      assert HostMayMatch(hosts[j], hash, Answer(answers, j), pkt, matches);
    }
  }

  // Every filter is a guard or is for one of the first n hosts.
  ghost predicate SparesOnly(k0: Kernel, ifaces: seq<Iface>, guards: seq<Guard>, base: nat, hosts: seq<Host>, n: nat,
                             hash: (string, Ip) -> nat, answers: seq<Option<seq<Ip>>>)
  {
    forall i, q: nat :: Lookup(k0, i, q).Some? ==>
      if q <= base + |guards| then IsGuard(guards, q - base - 1, k0, i, q)
      else i in ifaces && ForServed(hosts, n, hash, answers, Lookup(k0, i, q).value.m)
  }

  lemma SparesOnlyNow(k: Kernel, k': Kernel, guards: seq<Guard>, base: nat, hosts: seq<Host>, n: nat,
                      hash: (string, Ip) -> nat, answers: seq<Option<seq<Ip>>>, ifaces: seq<Iface>)
    requires OnlyGuards(k, guards, base) && Churned(k, k', {}, base + |guards|, Spared)
    requires CoveredUpTo(hosts, n, hash, answers, k', ifaces, base + |guards|, Spared)
    ensures SparesOnly(k', ifaces, guards, base, hosts, n, hash, answers)
  {
    hide ForServed, Covered;
  }

  // The first n allowed hosts are covered.
  ghost predicate AllowedSealed(k0: Kernel, ifaces: seq<Iface>, allowed: seq<Host>, n: nat, hash: (string, Ip) -> nat,
                                answers: seq<Option<seq<Ip>>>)
  {
    n <= |allowed| && forall j :: 0 <= j < n ==> Covered(allowed[j], hash, Answer(answers, j), k0, ifaces, Spared)
  }

  lemma AllowedNow(k0: Kernel, ifaces: seq<Iface>, allowed: seq<Host>, n: nat, hash: (string, Ip) -> nat,
                   answers: seq<Option<seq<Ip>>>, base: nat)
    requires CoveredUpTo(allowed, n, hash, answers, k0, ifaces, base, Spared)
    ensures AllowedSealed(k0, ifaces, allowed, n, hash, answers)
  {
  }

  // With no host and no service, everything is disrupted.
  ghost predicate AllDisrupted(k: Kernel, ifaces: seq<Iface>, boundary: nat) {
    forall i :: i in ifaces ==>
      && Lookup(k, i, boundary + 1) == Some(Filter(To(ANYWHERE), Disrupted))
      && Lookup(k, i, boundary + 2) == Some(Filter(To(ANYWHERE).(protocol := UDP), Disrupted))
  }

  // A watcher that was just started for a service.
  ghost predicate Watching(w: Watcher, found: Option<WatchedService>)
    reads w
  {
    && found.Some? && w.percentage == found.value.percentage && w.ports == found.value.ports
    && w.fromPods == w.fromServices == [] && w.podsWithoutIps == []
  }

  class Injection {
    const tc: Tc
    const ifaces: seq<Iface>
    const hash: (string, Ip) -> nat
    const hosts: HostWatcher
    var services: seq<Watcher>
    ghost var sealed: Kernel    // the table when the last sparing filter was added
    ghost var boundary: nat     // and the priority of that filter

    ghost predicate Owned()
      reads this, tc, hosts, services
    {
      && hosts.tc == tc && hosts.ifaces == ifaces && hosts.hash == hash && hosts.Valid()
      && (forall w :: w in services ==> w.tc == tc && w.ifaces == ifaces && w.Valid())
      && (forall a, b :: 0 <= a < b < |services| ==> services[a] != services[b])
    }

    // Watchers hold priorities above the boundary, and no two hold the same one.
    ghost predicate Apart()
      reads this, hosts, services
    {
      && (forall p :: p in hosts.owner ==> p > boundary)
      && (forall w :: w in services ==> forall p :: p in w.given ==> p > boundary && p !in hosts.owner)
      && (forall a, b :: 0 <= a < b < |services| ==> services[a].given !! services[b].given)
    }

    ghost predicate Valid()
      reads this, tc, hosts, services
    {
      Owned() && (!tc.wrapped ==> Apart() && boundary <= tc.last && Sealed(tc.kernel, sealed, boundary))
    }

    constructor (tc: Tc, ifaces: seq<Iface>, hash: (string, Ip) -> nat)
      requires tc.Valid()
      ensures this.tc == tc && this.ifaces == ifaces && fresh(hosts) && services == []
      ensures hosts.tc == tc && hosts.ifaces == ifaces && hosts.filters == map[] && hosts.owner == map[]
      ensures this.hash == hosts.hash == hash
    {
      this.tc, this.ifaces, this.hash := tc, ifaces, hash;
      hosts := new HostWatcher(tc, ifaces, hash);
      services, sealed, boundary := [], map[], 0;
    }

    method AddSafeguards(guards: seq<Guard>) returns (ok: bool)
      requires tc.Valid() && tc.kernel == map[] && !tc.turn.on
      modifies tc
      ensures tc.Valid() && (old(tc.wrapped) ==> tc.wrapped)
      ensures !tc.wrapped ==> AllSpared(tc.kernel) && old(tc.last) <= tc.last
      ensures !tc.wrapped && ok ==>
        && Guarded(tc.kernel, guards, old(tc.last)) && OnlyGuards(tc.kernel, guards, old(tc.last))
        && tc.last == old(tc.last) + |guards|
      ensures Counted(old(tc.wrapped), old(tc.last), tc.wrapped, tc.last, if ok then 0 else 1)
      ensures old(tc.script) == [] ==> tc.script == [] && (!tc.wrapped ==> (ok <==> Room(old(tc.last), |guards|)))
    {
      ok := true;
      for n := 0 to |guards|
        invariant ok && tc.Valid() && (old(tc.wrapped) ==> tc.wrapped)
        invariant !tc.wrapped ==>
          && AllSpared(tc.kernel) && Guarded(tc.kernel, guards[..n], old(tc.last))
          && OnlyGuards(tc.kernel, guards[..n], old(tc.last))
          && tc.last == old(tc.last) + n && Room(old(tc.last), n)
        invariant Counted(old(tc.wrapped), old(tc.last), tc.wrapped, tc.last, 0)
        invariant old(tc.script) == [] ==> tc.script == []
      {
        ghost var k := tc.kernel;
        tc.Unlogged();
        var p := tc.AddFilter(guards[n].ifaces, Filter(guards[n].m, Spared));
        if p.None? {
          return false;
        }
        if !tc.wrapped {
          GuardedSnoc(k, tc.kernel, guards, old(tc.last), n);
        }
      }
      assert guards[..|guards|] == guards;
    }

    method DisruptAll() returns (ok: bool)
      requires tc.Valid() && tc.Logged()
      modifies tc
      ensures tc.Valid() && tc.Logged() && (old(tc.wrapped) ==> tc.wrapped)
      ensures !tc.wrapped && ok ==> AllDisrupted(tc.kernel, ifaces, old(tc.last))
      ensures !tc.wrapped ==> old(tc.last) <= tc.last && Churned(old(tc.kernel), tc.kernel, {}, old(tc.last), Disrupted)
      ensures Counted(old(tc.wrapped), old(tc.last), tc.wrapped, tc.last, if ok then 0 else 1)
      ensures old(tc.script) == [] ==> tc.script == [] && (!tc.wrapped ==> (ok <==> Room(old(tc.last), 2)))
    {
      var p := tc.AddFilter(ifaces, Filter(To(ANYWHERE), Disrupted));
      if p.Some? {
        p := tc.AddFilter(ifaces, Filter(To(ANYWHERE).(protocol := UDP), Disrupted));
      }
      ok := p.Some?;
    }

    // handleFiltersForServices: every service is looked up before any watcher is started.
    method WatchServices(found: seq<Option<WatchedService>>) returns (ok: bool)
      requires Owned() && services == []
      modifies this`services
      ensures Owned() && forall w :: w in services ==> fresh(w) && w.given == {} && w.IsTight()
      ensures ok <==> forall s :: s in found ==> s.Some?
      ensures |services| == if ok then |found| else 0
      ensures forall j :: 0 <= j < |services| ==> Watching(services[j], found[j])
    {
      ok := true;
      var watchers: seq<Watcher> := [];
      for n := 0 to |found|
        invariant services == [] && |watchers| == n && forall s :: s in found[..n] ==> s.Some?
        invariant forall w :: w in watchers ==>
          fresh(w) && w.tc == tc && w.ifaces == ifaces && w.Valid() && w.given == {} && w.IsTight()
        invariant forall a, b :: 0 <= a < b < n ==> watchers[a] != watchers[b]
        invariant forall j :: 0 <= j < n ==> Watching(watchers[j], found[j])
      {
        assert found[n] in found && forall s :: s in found[..n + 1] <==> s in found[..n] || s == found[n];
        if found[n].None? {
          return false;
        }
        var s := found[n].value;
        var w := new Watcher(tc, ifaces, s.percentage, ip => hash(s.name, ip), s.ports);
        watchers := watchers + [w];
      }
      assert found[..|found|] == found;
      services := watchers;
    }

    // The filters of a new injection, on qdiscs that were just created. Whenever anything disrupts, the safeguards
    // are in the sealed table; after a success, so are the allowed hosts served while the context was alive and nothing
    // else, and what is to be disrupted is.
    method Inject(spec: NetworkSpec)
      returns (ok: bool, ghost served: nat, ghost held: map<nat, set<nat>>, ghost commands: seq<(nat, Command)>)
      requires Owned() && hosts.filters == map[] && hosts.owner == map[] && services == [] && tc.kernel == map[]
      modifies this, hosts, tc, tc.turn
      ensures Valid() && (old(tc.wrapped) ==> tc.wrapped) && forall w :: w in services ==> fresh(w) && w.IsTight()
      ensures !tc.wrapped ==>
        && KeepsAt(Now(), held)
        && Interleaved(SealedStart(spec), commands, Shared(tc.kernel, tc.last, held))
      ensures Counted(old(tc.wrapped), old(tc.last), tc.wrapped, tc.last, 2)
      ensures (old(tc.script) == [] ==> tc.script == [])
      ensures !tc.wrapped && (ok || AnyDisrupted(tc.kernel) || hosts.filters != map[] || services != []) ==>
        Guarded(sealed, Safeguards(spec, ifaces), old(tc.last)) && old(tc.last) + |Safeguards(spec, ifaces)| <= boundary
      ensures ok ==> AliveTurns(old(hosts.alive), |spec.allowed|, served)
      ensures !tc.wrapped && ok ==>
        && AllowedSealed(sealed, ifaces, spec.allowed, served, hash, old(hosts.answers))
        && SparesOnly(sealed, ifaces, Safeguards(spec, ifaces), old(tc.last), spec.allowed, served, hash,
             old(hosts.answers))
      ensures !tc.wrapped && ok && spec.hosts == [] && spec.services == [] ==> AllDisrupted(tc.kernel, ifaces, boundary)
      ensures ok && (spec.hosts != [] || spec.services != []) ==>
        |services| == |spec.services| && forall j :: 0 <= j < |services| ==> Watching(services[j], spec.services[j])
      ensures ok && AliveFor(old(hosts.alive), |spec.allowed|) && (spec.hosts != [] || spec.services != []) ==>
        hosts.filters.Keys ==
          if AliveFor(old(hosts.alive), |spec.allowed| + |spec.hosts|) then Elements(spec.hosts) else {}
      ensures !tc.wrapped && ok && Distinct(spec.hosts) && AliveFor(old(hosts.alive), |spec.allowed| + |spec.hosts|) ==>
        && hosts.Exact()
        && AllFollow(spec.hosts, |spec.hosts|, hash, Skip(old(hosts.answers), |spec.allowed|), hosts.filters, tc.kernel,
             ifaces, Disrupted)
      ensures !tc.wrapped && old(tc.script) == [] && Room(old(tc.last), |Safeguards(spec, ifaces)|) ==>
        ServedTo(spec.allowed, old(hosts.answers), old(hosts.alive), old(tc.last) + |Safeguards(spec, ifaces)|, served)
      ensures !tc.wrapped && old(tc.script) == [] && spec.hosts == [] && spec.services == [] ==>
        (ok <==>
           && Room(old(tc.last), |Safeguards(spec, ifaces)|)
           && (served < |spec.allowed| ==> !AliveAt(old(hosts.alive), served))
           && Room(old(tc.last) + |Safeguards(spec, ifaces)| + DemandUpTo(spec.allowed, old(hosts.answers), served), 2))
    {
      hide Guarded, AllSpared, Sealed, Churned, Safeguards, AllowedSealed, AllDisrupted, AnyDisrupted, ExactFor,
        SparesOnly, AllFollow, Counted, AliveFor, AliveTurns, Room, DemandUpTo, ServedTo, AliveAt, Skip, Elements,
        Distinct, Known, Watching, Interleaved, KeepsAt, Nobody;
      tc.turn.on := false;
      ok, served := SpareFirst(spec);
      boundary, sealed := tc.last, tc.kernel;
      ghost var over := tc.wrapped;
      if !tc.wrapped {
        SealedNow(tc.kernel, boundary);
        NoneDisrupted(tc.kernel);
      }
      CountedNothing(tc.wrapped, tc.last);
      held, commands := Nobody(|spec.services|), [];
      if !ok {
        NobodyKept(Now(), |spec.services|);
        NoCommands(SealedStart(spec));
        CountedTrans(old(tc.wrapped), old(tc.last), over, boundary, tc.wrapped, tc.last, 1, 1);
        return;
      }
      AliveSplit(old(hosts.alive), |spec.allowed|, |spec.hosts|, served);
      ok, held, commands := DisruptNext(spec);
      CountedTrans(old(tc.wrapped), old(tc.last), over, boundary, tc.wrapped, tc.last, 1, 1);
      if !tc.wrapped {
        SealedChurned(sealed, tc.kernel, sealed, boundary, {}, boundary);
      }
    }

    // What is shared when the last sparing filter was added: no watcher was given anything.
    ghost function SealedStart(spec: NetworkSpec): Shared
      reads this
    {
      Shared(sealed, boundary, Nobody(|spec.services|))
    }

    // Then what is to be disrupted: everything, or the hosts and the services.
    method DisruptNext(spec: NetworkSpec)
      returns (ok: bool, ghost held: map<nat, set<nat>>, ghost commands: seq<(nat, Command)>)
      requires Owned() && hosts.filters == map[] && hosts.owner == map[] && services == []
      modifies this`services, hosts, tc, tc.turn
      ensures !tc.wrapped ==>
        && KeepsAt(Now(), held)
        && Interleaved(Shared(old(tc.kernel), old(tc.last), Nobody(|spec.services|)), commands,
             Shared(tc.kernel, tc.last, held))
      ensures Owned() && (old(tc.wrapped) ==> tc.wrapped) && forall w :: w in services ==>
        fresh(w) && w.given == {} && w.IsTight()
      ensures Counted(old(tc.wrapped), old(tc.last), tc.wrapped, tc.last, 1)
      ensures (old(tc.script) == [] ==> tc.script == [])
      ensures !tc.wrapped ==>
        && old(tc.last) <= tc.last && Churned(old(tc.kernel), tc.kernel, {}, old(tc.last), Disrupted)
        && forall p :: p in hosts.owner ==> p > old(tc.last)
      ensures !tc.wrapped && ok && spec.hosts == [] && spec.services == [] ==>
        AllDisrupted(tc.kernel, ifaces, old(tc.last))
      ensures ok && (spec.hosts != [] || spec.services != []) ==>
        |services| == |spec.services| && forall j :: 0 <= j < |services| ==> Watching(services[j], spec.services[j])
      ensures ok && (spec.hosts != [] || spec.services != []) ==>
        hosts.filters.Keys == if AliveFor(old(hosts.alive), |spec.hosts|) then Elements(spec.hosts) else {}
      ensures !tc.wrapped && ok && Distinct(spec.hosts) && AliveFor(old(hosts.alive), |spec.hosts|) ==>
        && hosts.Exact()
        && AllFollow(spec.hosts, |spec.hosts|, hash, old(hosts.answers), hosts.filters, tc.kernel, ifaces, Disrupted)
      ensures !tc.wrapped && old(tc.script) == [] && spec.hosts == [] && spec.services == [] ==>
        (ok <==> Room(old(tc.last), 2))
    {
      hide Churned, AllDisrupted, ExactFor, AllFollow, Counted, AliveFor, Room, Known, Servable, Watching, Distinct;
      hide Interleaved, Tc.Valid, KeepsAt, Nobody;
      held, commands := Nobody(|spec.services|), [];
      tc.Begin(HOSTS, held);
      if spec.hosts == [] && spec.services == [] {
        ok := DisruptAll();
        NoHosts(tc.kernel, ifaces, hash, hosts.answers, hosts.filters, hosts.owner);
      } else {
        ok := hosts.Start(spec.hosts);
        if ok {
          ok := WatchServices(spec.services);
        }
      }
      CountedAtMost(old(tc.wrapped), old(tc.last), tc.wrapped, tc.last);
      if !tc.wrapped {
        held, commands := held[HOSTS := held[HOSTS] + Above(old(tc.last), tc.last)], tc.record[tc.turn.since..];
        StartKept(Now(), held, |spec.services|);
      }
    }

    // Safeguards, then allowed hosts.
    method SpareFirst(spec: NetworkSpec) returns (ok: bool, ghost served: nat)
      requires Owned() && !tc.turn.on && hosts.owner == map[] && tc.kernel == map[]
      modifies hosts`answers, hosts`alive, tc
      ensures tc.Valid() && (old(tc.wrapped) ==> tc.wrapped)
      ensures Counted(old(tc.wrapped), old(tc.last), tc.wrapped, tc.last, 1)
      ensures (old(tc.script) == [] ==> tc.script == [])
      ensures !tc.wrapped ==> AllSpared(tc.kernel) && old(tc.last) <= tc.last
      ensures !tc.wrapped && ok ==>
        && Guarded(tc.kernel, Safeguards(spec, ifaces), old(tc.last))
        && old(tc.last) + |Safeguards(spec, ifaces)| <= tc.last
      ensures ok ==> AliveTurns(old(hosts.alive), |spec.allowed|, served)
      ensures ok && served == |spec.allowed| ==>
        && hosts.answers == Skip(old(hosts.answers), |spec.allowed|)
        && hosts.alive == Skip(old(hosts.alive), |spec.allowed|)
      ensures !tc.wrapped && ok ==>
        && AllowedSealed(tc.kernel, ifaces, spec.allowed, served, hash, old(hosts.answers))
        && SparesOnly(tc.kernel, ifaces, Safeguards(spec, ifaces), old(tc.last), spec.allowed, served, hash,
             old(hosts.answers))
      ensures !tc.wrapped && old(tc.script) == [] ==>
        (ok <==>
           && Room(old(tc.last), |Safeguards(spec, ifaces)|)
           && (served < |spec.allowed| ==> !AliveAt(old(hosts.alive), served)))
      ensures !tc.wrapped && old(tc.script) == [] && Room(old(tc.last), |Safeguards(spec, ifaces)|) ==>
        ServedTo(spec.allowed, old(hosts.answers), old(hosts.alive), old(tc.last) + |Safeguards(spec, ifaces)|, served)
      ensures !tc.wrapped && old(tc.script) == [] && ok ==>
        tc.last == old(tc.last) + |Safeguards(spec, ifaces)| + DemandUpTo(spec.allowed, old(hosts.answers), served)
    {
      hide Safeguards, Churned, Accounted, Known, AllLive, Guarded, AllowedSealed, AllFollow, CoveredUpTo, OnlyGuards,
        SparesOnly, AllSpared, ServedTo, DemandUpTo, Skip, Servable, FailsAtOnce, Gained, Counted;
      served := 0;
      var guards := Safeguards(spec, ifaces);
      ok := AddSafeguards(guards);
      CountedAtMost(old(tc.wrapped), old(tc.last), tc.wrapped, tc.last);
      if !ok {
        return;
      }
      ghost var k, last, over := tc.kernel, tc.last, tc.wrapped;
      ghost var asked;
      var res, ledger;
      tc.Unlogged();
      res, ledger, asked, served := hosts.AddFiltersForHosts(spec.allowed, Spared);
      CountedAtMost(over, last, tc.wrapped, tc.last);
      CountedTrans(old(tc.wrapped), old(tc.last), over, last, tc.wrapped, tc.last, 0, 1);
      ok := res != Failing;
      if !tc.wrapped {
        AllSparedChurned(k, tc.kernel, last);
        GuardedChurned(k, tc.kernel, guards, old(tc.last), last, Spared);
        AccountedOrder(tc.kernel, asked, last, tc.last, spec.allowed);
        if ok {
          AllowedNow(tc.kernel, ifaces, spec.allowed, served, hash, old(hosts.answers), last);
          SparesOnlyNow(k, tc.kernel, guards, old(tc.last), spec.allowed, served, hash, old(hosts.answers), ifaces);
        }
      }
    }

    // What an observer of the run sees.
    ghost function Now(): Snap
      reads this, tc, hosts, services
    {
      Snap(tc.kernel, tc.last, hosts.filters, hosts.owner, hosts.answers, hosts.alive,
        seq(|services|, j requires 0 <= j < |services| reads this, services => ShelfOf(services[j])))
    }

    // One event of one of the watchers, who may delete what it was given.
    method Step(e: Event) returns (ghost note: Note)
      requires Valid() && tc.Logged() && (!tc.wrapped ==> tc.turn.Permits(GivenTo(Now(), Actor(e, |services|))))
      modifies this, tc, hosts, services
      ensures Valid() && tc.Logged() && (old(tc.wrapped) ==> tc.wrapped)
      ensures !tc.wrapped ==> Asked(Actor(e, |services|), old(Now()), Now())
      ensures sealed == old(sealed) && boundary == old(boundary) && services == old(services)
      ensures Counted(old(tc.wrapped), old(tc.last), tc.wrapped, tc.last, 1)
      ensures (old(tc.script) == [] ==> tc.script == [])
      ensures old(hosts.filters) == map[] && services == [] ==> tc.kernel == old(tc.kernel) && hosts.filters == map[]
      ensures !tc.wrapped && old(tc.script) == [] && Distinct(ifaces) ==>
        StepOk(e, old(Now()), note, Now(), ifaces, hash)
    {
      hide StepOk, Counted;
      note := Note([], map[], [], true);
      match e
      case HostTick => note := HostStep();
      case ServiceChange(n, service) =>
        if n < |services| {
          note := ServiceStep(n, e);
        } else {
          CountedNothing(tc.wrapped, tc.last);
          IdleStep(e, Now(), note, ifaces, hash);
        }
      case PodChange(n, pod) =>
        if n < |services| {
          note := ServiceStep(n, e);
        } else {
          CountedNothing(tc.wrapped, tc.last);
          IdleStep(e, Now(), note, ifaces, hash);
        }
    }

    method HostStep() returns (ghost note: Note)
      requires Valid() && tc.Logged() && (!tc.wrapped ==> tc.turn.Permits(hosts.owner.Keys))
      modifies tc, hosts
      ensures Valid() && tc.Logged() && (old(tc.wrapped) ==> tc.wrapped)
      ensures !tc.wrapped ==> Asked(HOSTS, old(Now()), Now())
      ensures Counted(old(tc.wrapped), old(tc.last), tc.wrapped, tc.last, 1)
      ensures (old(tc.script) == [] ==> tc.script == [])
      ensures old(hosts.filters) == map[] ==> tc.kernel == old(tc.kernel) && hosts.filters == map[]
      ensures !tc.wrapped && old(tc.script) == [] && Distinct(ifaces) ==>
        StepOk(HostTick, old(Now()), note, Now(), ifaces, hash)
    {
      hide Sealed, Churned, Layered, Counted, Judged, Done, Coming, TickKeeps, Servable, ExactFor, AllFollow,
        TightLedgers, Known, TightAt, Turn.Permits, Asked, Tc.Valid, Tc.Logged;
      ghost var k, base, mine, before := tc.kernel, tc.last, hosts.owner.Keys, Now();
      var outcome, changed, seen := hosts.Tick();
      note := Note(changed, seen, [], true);
      NobodyChanged(old(hosts.filters), changed, seen, hash, old(hosts.answers));
      if !tc.wrapped {
        SealedChurned(k, tc.kernel, sealed, boundary, mine, base);
        HostsAsked(before, Now());
        forall n | 0 <= n < |services| ensures TightAt(Now(), n, ifaces) <==> TightAt(before, n, ifaces) {
          assert services[n] in services && services[n].Valid();
          assert Elsewhere(before.shelves[n].given, mine, base);
          TightFrame(before, Now(), n, ifaces, mine, base);
        }
      }
    }

    // What the watchers hold is above the boundary, and apart.
    lemma SetApartAll()
      requires Valid() && !tc.wrapped
      ensures Separate(Shared(tc.kernel, tc.last, Holdings(Now())), boundary)
    {
      hide Sealed, ExactFor, TightLedgers, Known;
      forall w: nat, p | w <= |services| && p in GivenTo(Now(), w) ensures boundary < p <= tc.last {
        if w > 0 {
          assert services[w - 1] in services && services[w - 1].Valid();
        }
      }
      forall v: nat, w: nat | v < w <= |services| ensures GivenTo(Now(), v) !! GivenTo(Now(), w) {
        assert services[w - 1] in services;
      }
    }

    lemma SetApart(n: nat)
      requires Valid() && !tc.wrapped && n < |services|
      ensures Elsewhere(hosts.owner.Keys, services[n].given, tc.last)
      ensures forall m :: 0 <= m < |services| && m != n ==> Elsewhere(services[m].given, services[n].given, tc.last)
    {
      assert services[n] in services;
      forall m | 0 <= m < |services| && m != n ensures Elsewhere(services[m].given, services[n].given, tc.last) {
        assert services[m] in services && services[m].Valid();
      }
    }

    // The watcher concerned handles its event.
    method Deliver(w: Watcher, e: Event) returns (handled: bool, ghost desired: seq<Service>)
      requires w.Valid() && w.tc == tc && w.ifaces == ifaces && !e.HostTick? && w.Entitled()
      modifies w, tc
      ensures w.Valid() && tc.Logged() && (old(tc.wrapped) ==> tc.wrapped)
      ensures Counted(old(tc.wrapped), old(tc.last), tc.wrapped, tc.last, 1)
      ensures (old(tc.script) == [] ==> tc.script == [])
      ensures !tc.wrapped ==> Behaved(old(tc.kernel), tc.kernel, old(w.given), w.given, old(tc.last), tc.last)
      ensures !tc.wrapped && old(tc.script) == [] && Distinct(ifaces) && old(w.IsTight()) ==>
        SinglePorts(e, old(ShelfOf(w))) ==>
        EventOutcome(e, old(ShelfOf(w)), old(tc.last), Note([], map[], desired, handled), ifaces, w.IsTight())
    {
      hide TightLedgers, ServiceOutcome, PodOutcome, Wants, AllPortsSingle, Services, Priorities, ServicesHandled,
        PodHandled, Counted, PortsAfter, ServiceBroken, Tc.Valid, Behaved;
      desired := [];
      match e {
        case ServiceChange(_, service) => handled, desired := w.OnService(service);
        case PodChange(_, pod) => handled := w.OnPod(pod);
      }
      CountedAtMost(old(tc.wrapped), old(tc.last), tc.wrapped, tc.last);
    }

    method ServiceStep(n: nat, e: Event) returns (ghost note: Note)
      requires Valid() && n < |services| && !e.HostTick? && e.index == n && services[n].Entitled()
      modifies tc, services
      ensures !tc.wrapped ==> Asked(n + 1, old(Now()), Now())
      ensures Valid() && tc.Logged() && (old(tc.wrapped) ==> tc.wrapped)
      ensures Counted(old(tc.wrapped), old(tc.last), tc.wrapped, tc.last, 1)
      ensures (old(tc.script) == [] ==> tc.script == [])
      ensures !tc.wrapped && old(tc.script) == [] && Distinct(ifaces) ==>
        StepOk(e, old(Now()), note, Now(), ifaces, hash)
    {
      hide Sealed, Churned, Layered, ExactFor, TightLedgers, EventOutcome, SinglePorts, Priorities, Known, StepOk,
        Counted, Tc.Valid, Elsewhere;
      ghost var k, base, mine, before := tc.kernel, tc.last, services[n].given, Now();
      ghost var quiet := tc.script == [] && Distinct(ifaces);
      assert services[n] in services;
      if !tc.wrapped {
        SetApart(n);
      }
      var handled;
      ghost var desired;
      handled, desired := Deliver(services[n], e);
      note := Note([], map[], desired, handled);
      assert Owned();
      if !tc.wrapped {
        SealedChurned(k, tc.kernel, sealed, boundary, mine, base);
        forall a, b | 0 <= a < b < |services| ensures services[a].given !! services[b].given {
          assert services[a] in services && services[b] in services;
          assert old(services[a].given) !! old(services[b].given);
        }
        if quiet {
          ServiceStepOk(e, n, before, note, Now(), ifaces, hash, mine, base);
        }
      }
    }

    // An injection, whether it succeeds or not, and then any events: what becomes of any packet on any interface, as
    // long as the events do not outnumber the 32-bit counter. From the seal on, this is so after every single command.
    method InjectAndRun<P(!new)>(spec: NetworkSpec, events: seq<Event>, ghost i: Iface, ghost pkt: P,
                                 ghost matches: (Match, P) -> bool)
      returns (ok: bool, ghost served: nat, ghost held: map<nat, set<nat>>, ghost commands: seq<(nat, Command)>)
      requires Owned() && hosts.filters == map[] && hosts.owner == map[] && services == [] && tc.kernel == map[]
      modifies this, hosts, tc, tc.turn
      ensures Valid() && (ok ==> AliveTurns(old(hosts.alive), |spec.allowed|, served))
      ensures old(Countable(|events| + 2)) ==> !tc.wrapped
      ensures old(Countable(|events| + 2)) && AnyDisrupted(tc.kernel) ==>
        (GuardMatches(Safeguards(spec, ifaces), i, pkt, matches) ==> PacketSpared(tc.kernel, i, pkt, matches))
      ensures old(Countable(|events| + 2)) && ok ==>
        Verdict(tc.kernel, i, ifaces, spec, served, hash, old(hosts.answers), pkt, matches)
      ensures old(Countable(|events| + 2)) ==>
        SealedThroughout(SealedStart(spec), commands, Shared(tc.kernel, tc.last, held), sealed, boundary)
      ensures old(Countable(|events| + 2)) && ok ==>
        forall n :: 0 <= n <= |commands| ==>
          Verdict(After(SealedStart(spec), commands[..n]).kernel, i, ifaces, spec, served, hash, old(hosts.answers),
            pkt, matches)
    {
      hide Guarded, Sealed, Safeguards, AllowedSealed, AllDisrupted, AnyDisrupted, SparesOnly, AllFollow, AliveFor,
        AliveTurns, Room, DemandUpTo, ServedTo, AliveAt, Skip, Elements, Distinct, Watching, Owned, Apart, Verdict,
        GuardMatches, PacketSpared, Now, Recorded, KeepsAt, Interleaved, SealedThroughout, After, Separate;
      ok, served, held, commands := Inject(spec);
      ghost var start, middle := SealedStart(spec), Shared(tc.kernel, tc.last, held);
      if !tc.wrapped {
        NobodySeparate(sealed, boundary, |spec.services|);
        SealedIsSealed(tc.kernel, sealed, boundary);
        InterleavingsKeepSeal(start, commands, middle, sealed, boundary);
      }
      ghost var over, last := tc.wrapped, tc.last;
      forall j | 0 <= j < |services| ensures fresh(services[j]) {
        assert services[j] in services;
      }
      ghost var log, notes, more;
      log, notes, held, more := Run(events, held);
      if !tc.wrapped {
        InterleavedTrans(start, commands, middle, more, Shared(tc.kernel, tc.last, held));
        commands := commands + more;
        CommandsKeepSeal(start, commands, Shared(tc.kernel, tc.last, held), sealed, boundary);
      }
      CountedTrans(old(tc.wrapped), old(tc.last), over, last, tc.wrapped, tc.last, 2, |events|);
      if !tc.wrapped && (ok || AnyDisrupted(tc.kernel)) {
        GuardVerdict(tc.kernel, sealed, boundary, Safeguards(spec, ifaces), old(tc.last), i, pkt, matches);
        if ok {
          SealVerdict(tc.kernel, sealed, boundary, i, ifaces, spec, old(tc.last), served, hash, old(hosts.answers), pkt,
            matches);
          forall n | 0 <= n <= |commands|
            ensures Verdict(After(start, commands[..n]).kernel, i, ifaces, spec, served, hash, old(hosts.answers), pkt,
                      matches)
          {
            SealedAfter(start, commands, Shared(tc.kernel, tc.last, held), sealed, boundary, n);
            SealVerdict(After(start, commands[..n]).kernel, sealed, boundary, i, ifaces, spec, old(tc.last), served,
              hash, old(hosts.answers), pkt, matches);
          }
        }
      }
    }

    // The counter can be asked n times over its limit without overflowing.
    ghost predicate Countable(n: nat)
      reads tc
    {
      !tc.wrapped && Max(PRIORITY_LIMIT, tc.last) + n + 1 < UINT32
    }

    // The same event, command by command: each is one the watcher is allowed, given what everyone was given before.
    method Act(e: Event, ghost held: map<nat, set<nat>>)
      returns (ghost note: Note, ghost held': map<nat, set<nat>>, ghost commands: seq<(nat, Command)>)
      requires Valid() && (!tc.wrapped ==> KeepsAt(Now(), held))
      modifies this, tc, tc.turn, hosts, services
      ensures Valid() && (old(tc.wrapped) ==> tc.wrapped)
      ensures sealed == old(sealed) && boundary == old(boundary) && services == old(services)
      ensures Counted(old(tc.wrapped), old(tc.last), tc.wrapped, tc.last, 1)
      ensures (old(tc.script) == [] ==> tc.script == [])
      ensures old(hosts.filters) == map[] && services == [] ==> tc.kernel == old(tc.kernel) && hosts.filters == map[]
      ensures !tc.wrapped && old(tc.script) == [] && Distinct(ifaces) ==>
        StepOk(e, old(Now()), note, Now(), ifaces, hash)
      ensures !tc.wrapped ==>
        && KeepsAt(Now(), held')
        && Interleaved(Shared(old(tc.kernel), old(tc.last), held), commands, Shared(tc.kernel, tc.last, held'))
    {
      hide StepOk, Counted, Asked, KeepsAt, Apart, Owned, Sealed, Interleaved;
      ghost var who, before := Actor(e, |services|), Now();
      ghost var start := if who in held then held else map[who := {}];
      tc.Begin(who, start);
      if !tc.wrapped {
        MayDelete(before, held, who, tc.turn);
      }
      note := Step(e);
      held', commands := start[who := start[who] + Above(old(tc.last), tc.last)], [];
      if !tc.wrapped {
        commands := tc.record[tc.turn.since..];
        KeptAt(before, Now(), held, who);
      }
    }

    // Any events at all: what they do as a whole, and command by command.
    method Run(events: seq<Event>, ghost given: map<nat, set<nat>>)
      returns (ghost log: seq<Snap>, ghost notes: seq<Note>, ghost held: map<nat, set<nat>>,
               ghost commands: seq<(nat, Command)>)
      requires Valid()
      requires !tc.wrapped ==> KeepsAt(Now(), given) && Separate(Shared(tc.kernel, tc.last, given), boundary)
      modifies this, tc, tc.turn, hosts, services
      ensures Valid() && sealed == old(sealed) && boundary == old(boundary) && services == old(services)
      ensures old(tc.wrapped) ==> tc.wrapped
      ensures Counted(old(tc.wrapped), old(tc.last), tc.wrapped, tc.last, |events|)
      ensures (old(tc.script) == [] ==> tc.script == [])
      ensures old(hosts.filters) == map[] && services == [] ==> tc.kernel == old(tc.kernel) && hosts.filters == map[]
      ensures !tc.wrapped ==> Sealed(tc.kernel, old(sealed), old(boundary))
      ensures |log| == |events| + 1 && log[0] == old(Now()) && log[|events|] == Now() && |notes| == |events|
      ensures !tc.wrapped && old(tc.script) == [] && Distinct(ifaces) ==> Recorded(events, log, notes, ifaces, hash)
      ensures !tc.wrapped ==>
        && SealedThroughout(Shared(old(tc.kernel), old(tc.last), given), commands, Shared(tc.kernel, tc.last, held),
             sealed, boundary)
        && Interleaved(Shared(old(tc.kernel), old(tc.last), given), commands, Shared(tc.kernel, tc.last, held))
    {
      hide Sealed, Layered, StepOk, Counted, Now, Interleaved, KeepsAt, Separate, SealedThroughout;
      log, notes, held, commands := [Now()], [], given, [];
      ghost var start := Shared(tc.kernel, tc.last, given);
      NoCommands(start);
      CountedNothing(tc.wrapped, tc.last);
      for n := 0 to |events|
        invariant !tc.wrapped ==>
          KeepsAt(Now(), held) && Interleaved(start, commands, Shared(tc.kernel, tc.last, held))
        invariant Valid() && sealed == old(sealed) && boundary == old(boundary) && services == old(services)
        invariant (old(tc.wrapped) ==> tc.wrapped) && (old(tc.script) == [] ==> tc.script == [])
        invariant old(hosts.filters) == map[] && services == [] ==>
          tc.kernel == old(tc.kernel) && hosts.filters == map[]
        invariant Counted(old(tc.wrapped), old(tc.last), tc.wrapped, tc.last, n)
        invariant |log| == n + 1 && log[0] == old(Now()) && log[n] == Now() && |notes| == n
        invariant !tc.wrapped && old(tc.script) == [] && Distinct(ifaces) ==>
          Recorded(events[..n], log, notes, ifaces, hash)
      {
        ghost var over, last := tc.wrapped, tc.last;
        ghost var mid := Shared(tc.kernel, tc.last, held);
        ghost var note, more;
        note, held, more := Act(events[n], held);
        CountedTrans(old(tc.wrapped), old(tc.last), over, last, tc.wrapped, tc.last, n, 1);
        if !tc.wrapped {
          InterleavedTrans(start, commands, mid, more, Shared(tc.kernel, tc.last, held));
        }
        log, notes, commands := log + [Now()], notes + [note], commands + more;
      }
      assert events[..|events|] == events;
      if !tc.wrapped {
        CommandsKeepSeal(start, commands, Shared(tc.kernel, tc.last, held), sealed, boundary);
      }
    }

    // The same events, seen from the ledgers: without tc failures they tell the truth at the end, the hosts' one if
    // every turn of their watcher was safe, that of a service if there was room for it and no purge of more than two
    // filters.
    method RunLedgers(events: seq<Event>) returns (ghost log: seq<Snap>, ghost notes: seq<Note>)
      requires Valid()
      modifies this, tc, tc.turn, hosts, services
      ensures Valid() && services == old(services)
      ensures Counted(old(tc.wrapped), old(tc.last), tc.wrapped, tc.last, |events|)
      ensures |log| == |events| + 1 && log[0] == old(Now()) && log[|events|] == Now() && |notes| == |events|
      ensures !tc.wrapped && old(tc.script) == [] && Distinct(ifaces) ==> Recorded(events, log, notes, ifaces, hash)
      ensures !tc.wrapped && old(tc.script) == [] && Distinct(ifaces) && ifaces != [] ==>
        old(hosts.Exact()) && TicksSafe(events, log, notes) ==> hosts.Exact()
      ensures !tc.wrapped && old(tc.script) == [] && Distinct(ifaces) ==>
        forall n :: 0 <= n < |services| && old(services[n].IsTight()) && WellServed(events, log, notes, n) ==>
          services[n].IsTight()
    {
      hide StepOk, Counted, TickSafe, Plainly, Harmless, PlainPurge, ExactFor, TightLedgers, Apart, Sealed, Layered,
        KeepsAt, Separate, Holdings, Interleaved, SealedThroughout;
      ghost var held, commands;
      HoldingsKept(Now());
      if !tc.wrapped {
        SetApartAll();
      }
      log, notes, held, commands := Run(events, Holdings(Now()));
      if !tc.wrapped && old(tc.script) == [] && Distinct(ifaces) {
        if old(hosts.Exact()) && ifaces != [] {
          ExactThroughout(events, log, notes, ifaces, hash);
          assert ExactAt(log[|events|], ifaces) <==> hosts.Exact();
        }
        forall n | 0 <= n < |services| && old(services[n].IsTight()) && WellServed(events, log, notes, n)
          ensures services[n].IsTight()
        {
          assert old(services[n]) in old(services) && services[n] in services;
          TightThroughout(events, log, notes, ifaces, hash, n);
          assert TightAt(log[|events|], n, ifaces);
        }
      }
    }
  }

  /* ---------- what becomes of packets ---------- */

  ghost predicate PacketSpared<P(!new)>(k: Kernel, i: Iface, pkt: P, matches: (Match, P) -> bool) {
    exists first: nat :: FirstHit(k, i, first, pkt, matches) && Lookup(k, i, first).value.band == Spared
  }

  ghost predicate GuardMatches<P(!new)>(guards: seq<Guard>, i: Iface, pkt: P, matches: (Match, P) -> bool) {
    exists j :: 0 <= j < |guards| && i in guards[j].ifaces && matches(guards[j].m, pkt)
  }

  // The packet is from or to an IP of the host, in one of its protocols.
  ghost predicate HostMatches<P(!new)>(h: Host, hash: (string, Ip) -> nat, answer: Option<seq<Ip>>, pkt: P,
                                       matches: (Match, P) -> bool)
  {
    exists ip, p :: KeepsIp(h, hash, answer, ip) && p in AllProtocols(h.protocol) && matches(MatchFor(h, ip, p), pkt)
  }

  ghost predicate AllowedMatches<P(!new)>(allowed: seq<Host>, n: nat, hash: (string, Ip) -> nat,
                                          answers: seq<Option<seq<Ip>>>, pkt: P, matches: (Match, P) -> bool)
  {
    n <= |allowed| && exists j :: 0 <= j < n && HostMatches(allowed[j], hash, Answer(answers, j), pkt, matches)
  }

  // The same for the IPs that some narrowing keeps.
  ghost predicate HostMayMatch<P(!new)>(h: Host, hash: (string, Ip) -> nat, answer: Option<seq<Ip>>, pkt: P,
                                        matches: (Match, P) -> bool)
  {
    exists ip, p :: MayKeepIp(h, hash, answer, ip) && p in AllProtocols(h.protocol) && matches(MatchFor(h, ip, p), pkt)
  }

  ghost predicate AllowedMayMatch<P(!new)>(allowed: seq<Host>, n: nat, hash: (string, Ip) -> nat,
                                           answers: seq<Option<seq<Ip>>>, pkt: P, matches: (Match, P) -> bool)
  {
    n <= |allowed| && exists j :: 0 <= j < n && HostMayMatch(allowed[j], hash, Answer(answers, j), pkt, matches)
  }

  ghost predicate AllDefinite(allowed: seq<Host>, n: nat, hash: (string, Ip) -> nat, answers: seq<Option<seq<Ip>>>) {
    n <= |allowed| && forall j :: 0 <= j < n ==> Definite(allowed[j], hash, Answer(answers, j))
  }

  lemma DefiniteMatches<P(!new)>(h: Host, hash: (string, Ip) -> nat, answer: Option<seq<Ip>>, pkt: P,
                                 matches: (Match, P) -> bool)
    requires Definite(h, hash, answer) && HostMayMatch(h, hash, answer, pkt, matches)
    ensures HostMatches(h, hash, answer, pkt, matches)
  {
    hide Narrowed, Definite;
    var ip, p :| MayKeepIp(h, hash, answer, ip) && p in AllProtocols(h.protocol) && matches(MatchFor(h, ip, p), pkt);
    var ips :| Narrowed(h, hash, answer.value, ips) && ip in ips;
    KeptIp(h, hash, answer, ips, ip);
  }

  // What a sealed table does to a packet: guards on its interface and covered hosts spare theirs, and nobody else is
  // spared; when no hashes collide, it is spared exactly if one of these matches.
  ghost predicate Verdict<P(!new)>(k: Kernel, i: Iface, ifaces: seq<Iface>, spec: NetworkSpec, served: nat,
                                   hash: (string, Ip) -> nat, answers: seq<Option<seq<Ip>>>, pkt: P,
                                   matches: (Match, P) -> bool)
  {
    var guarded := GuardMatches(Safeguards(spec, ifaces), i, pkt, matches);
    && (guarded || (i in ifaces && AllowedMatches(spec.allowed, served, hash, answers, pkt, matches)) ==>
          PacketSpared(k, i, pkt, matches))
    && (PacketSpared(k, i, pkt, matches) ==>
          guarded || (i in ifaces && AllowedMayMatch(spec.allowed, served, hash, answers, pkt, matches)))
    && (AllDefinite(spec.allowed, served, hash, answers) ==>
          (PacketSpared(k, i, pkt, matches) <==>
             guarded || (i in ifaces && AllowedMatches(spec.allowed, served, hash, answers, pkt, matches))))
  }

  lemma GuardVerdict<P(!new)>(k: Kernel, k0: Kernel, boundary: nat, guards: seq<Guard>, base: nat, i: Iface, pkt: P,
                              matches: (Match, P) -> bool)
    requires Sealed(k, k0, boundary) && Guarded(k0, guards, base) && base + |guards| <= boundary
    ensures GuardMatches(guards, i, pkt, matches) ==> PacketSpared(k, i, pkt, matches)
  {
    hide Sealed, Guarded;
    if j :| 0 <= j < |guards| && i in guards[j].ifaces && matches(guards[j].m, pkt) {
      var first := GuardedPacketSpared(k, k0, boundary, guards, base, j, i, pkt, matches);
    }
  }

  lemma SealVerdict<P(!new)>(k: Kernel, k0: Kernel, boundary: nat, i: Iface, ifaces: seq<Iface>, spec: NetworkSpec,
                             base: nat, served: nat, hash: (string, Ip) -> nat, answers: seq<Option<seq<Ip>>>, pkt: P,
                             matches: (Match, P) -> bool)
    requires Sealed(k, k0, boundary) && Guarded(k0, Safeguards(spec, ifaces), base)
    requires base + |Safeguards(spec, ifaces)| <= boundary
    requires AllowedSealed(k0, ifaces, spec.allowed, served, hash, answers)
    requires SparesOnly(k0, ifaces, Safeguards(spec, ifaces), base, spec.allowed, served, hash, answers)
    ensures Verdict(k, i, ifaces, spec, served, hash, answers, pkt, matches)
  {
    hide Sealed, Guarded, Safeguards, SparesOnly, Covered, KeepsIp, MayKeepIp, Definite;
    GuardVerdict(k, k0, boundary, Safeguards(spec, ifaces), base, i, pkt, matches);
    if AllowedMatches(spec.allowed, served, hash, answers, pkt, matches) && i in ifaces {
      var j :| 0 <= j < served && HostMatches(spec.allowed[j], hash, Answer(answers, j), pkt, matches);
      var h := spec.allowed[j];
      var ip, p :| && KeepsIp(h, hash, Answer(answers, j), ip) && p in AllProtocols(h.protocol)
                   && matches(MatchFor(h, ip, p), pkt);
      var first := AllowedPacketSpared(k, k0, boundary, ifaces, h, hash, Answer(answers, j), ip, p, i, pkt, matches);
    }
    if PacketSpared(k, i, pkt, matches) {
      var first: nat :| FirstHit(k, i, first, pkt, matches) && Lookup(k, i, first).value.band == Spared;
      OthersNotSpared(k, k0, boundary, ifaces, Safeguards(spec, ifaces), base, spec.allowed, served, hash, answers, i,
        first, pkt, matches);
      if && AllDefinite(spec.allowed, served, hash, answers)
         && AllowedMayMatch(spec.allowed, served, hash, answers, pkt, matches)
      {
        var j :| 0 <= j < served && HostMayMatch(spec.allowed[j], hash, Answer(answers, j), pkt, matches);
        DefiniteMatches(spec.allowed[j], hash, Answer(answers, j), pkt, matches);
      }
    }
  }

  // A context cancelled before the allowed hosts are served: the injection succeeds, disrupts everything, and the
  // allowed host is not spared.
  method CancelledContext(h: Host, ip: Ip, iface: Iface, hash: (string, Ip) -> nat) returns (run: Injection, ok: bool)
    requires h.percentage.None? && ip != METADATA_IP
    ensures ok && fresh(run) && run.Valid() && !run.tc.wrapped && AllDisrupted(run.tc.kernel, [iface], run.boundary)
    ensures !Covered(h, hash, Some([ip]), run.sealed, [iface], Spared)
  {
    hide Sealed, Guarded, AllowedSealed, AllDisrupted, Covered, SparesOnly, ServedTo, AllFollow, Tc.Valid, ExactFor;
    var tc := new Tc();
    run := new Injection(tc, [iface], hash);
    run.hosts.answers, run.hosts.alive := [Some([ip])], [false];
    var spec := NetworkSpec(NodeLevel, [], "", [h], [], []);
    ghost var served;
    NothingOwned(run.hosts.filters, run.hosts.owner);
    ghost var held, commands;
    ok, served, held, commands := run.Inject(spec);
    CancelledAtOnce([h], [Some([ip])], [false], 1003, served);
    GuardsAlone(run.sealed, h, hash, ip, iface, Safeguards(spec, [iface]), 1000);
  }

  lemma CancelledAtOnce(hosts: seq<Host>, answers: seq<Option<seq<Ip>>>, alive: seq<bool>, last: nat, served: nat)
    requires ServedTo(hosts, answers, alive, last, served) && hosts != [] && !AliveAt(alive, 0)
    ensures served == 0
  {
    assert !TurnServed(hosts, answers, alive, last, 0);
  }

  lemma GuardsAlone(k0: Kernel, h: Host, hash: (string, Ip) -> nat, ip: Ip, iface: Iface, guards: seq<Guard>, base: nat)
    requires SparesOnly(k0, [iface], guards, base, [h], 0, hash, [Some([ip])]) && h.percentage.None?
    requires forall j, p :: 0 <= j < |guards| ==> guards[j].m != MatchFor(h, ip, p)
    ensures !Covered(h, hash, Some([ip]), k0, [iface], Spared)
  {
    SomeProtocolOf(h);
    var p := AllProtocols(h.protocol)[0];
    assert !HasFilter(k0, iface, Filter(MatchFor(h, ip, p), Spared));
    assert ip in Elements([ip]) && iface in [iface];
  }

  /* ---------- what a run does to the ledgers ---------- */

  // The state of one service watcher.
  datatype Shelf = Shelf(
    percentage: Option<int>, hash: Ip -> nat, ports: seq<ServicePort>, fromPods: seq<ServiceFilter>,
    fromServices: seq<ServiceFilter>, waiting: seq<string>, given: set<nat>)

  datatype Snap = Snap(
    kernel: Kernel, last: nat, filters: map<Host, seq<TcFilter>>, owner: map<nat, Host>,
    answers: seq<Option<seq<Ip>>>, alive: seq<bool>, shelves: seq<Shelf>)

  // What an event came to: the hosts found changed and what they resolved to, or the endpoints wanted and whether the
  // event was handled.
  datatype Note = Note(changed: seq<Host>, seen: map<Host, Option<seq<Ip>>>, desired: seq<Service>, handled: bool)

  ghost function ShelfOf(w: Watcher): Shelf
    reads w
  {
    Shelf(w.percentage, w.hash, w.ports, w.fromPods, w.fromServices, w.podsWithoutIps, w.given)
  }

  ghost predicate ExactAt(s: Snap, ifaces: seq<Iface>) {
    ExactFor(s.kernel, ifaces, s.filters, s.owner)
  }

  ghost predicate TightAt(s: Snap, n: nat, ifaces: seq<Iface>) {
    && n < |s.shelves|
    && TightLedgers(s.kernel, ifaces, s.shelves[n].given, s.shelves[n].fromPods, s.shelves[n].fromServices)
  }

  // Whether a turn of the host watcher keeps an exact ledger exact.
  ghost predicate TickSafe(s: Snap, note: Note) {
    TickKeeps(s.filters, note.changed, Coming(s.answers, s.filters), s.alive, s.last)
  }

  // Who acts on an event: the watcher of the hosts, or that of a service.
  const HOSTS: nat := 0

  function Actor(e: Event, n: nat): nat {
    match e
    case HostTick => HOSTS
    case ServiceChange(m, _) => if m < n then m + 1 else HOSTS
    case PodChange(m, _) => if m < n then m + 1 else HOSTS
  }

  // The priorities a watcher was given.
  function GivenTo(s: Snap, who: nat): set<nat> {
    if who == HOSTS then s.owner.Keys else if who <= |s.shelves| then s.shelves[who - 1].given else {}
  }

  // Only the watcher at work was given priorities, and only such as it asked for.
  ghost predicate Asked(who: nat, before: Snap, after: Snap) {
    && |after.shelves| == |before.shelves| && before.last <= after.last
    && forall w: nat :: w <= |before.shelves| ==>
         GivenTo(after, w) <= GivenTo(before, w) + if w == who then Above(before.last, after.last) else {}
  }

  // What everyone was given, and maybe more.
  ghost predicate KeepsAt(s: Snap, held: map<nat, set<nat>>) {
    forall w: nat :: w <= |s.shelves| ==> w in held && GivenTo(s, w) <= held[w]
  }

  ghost function Holdings(s: Snap): map<nat, set<nat>> {
    map w: nat | 0 <= w <= |s.shelves| :: GivenTo(s, w)
  }

  function Nobody(n: nat): (r: map<nat, set<nat>>)
    ensures forall w: nat :: w in r <==> w <= n
    ensures forall w: nat :: w in r ==> r[w] == {}
  {
    if n == 0 then map[HOSTS := {}] else Nobody(n - 1)[n := {}]
  }

  lemma NobodyKept(s: Snap, n: nat)
    requires |s.shelves| <= n && s.owner == map[] && forall j :: 0 <= j < |s.shelves| ==> s.shelves[j].given == {}
    ensures KeepsAt(s, Nobody(n))
  {
  }

  lemma StartKept(s: Snap, held: map<nat, set<nat>>, n: nat)
    requires |s.shelves| <= n && forall j :: 0 <= j < |s.shelves| ==> s.shelves[j].given == {}
    requires held.Keys == Nobody(n).Keys && s.owner.Keys <= held[HOSTS]
    ensures KeepsAt(s, held)
  {
  }

  lemma HoldingsKept(s: Snap)
    ensures KeepsAt(s, Holdings(s))
  {
  }

  lemma MayDelete(s: Snap, held: map<nat, set<nat>>, who: nat, turn: Turn)
    requires KeepsAt(s, held) && who <= |s.shelves| && (who in held ==> turn.Permits(held[who]))
    ensures who in held && turn.Permits(GivenTo(s, who))
  {
    assert GivenTo(s, who) <= held[who];
  }

  lemma KeptAt(before: Snap, after: Snap, held: map<nat, set<nat>>, who: nat)
    requires KeepsAt(before, held) && Asked(who, before, after) && who in held
    ensures KeepsAt(after, held[who := held[who] + Above(before.last, after.last)])
  {
    forall w: nat | w <= |after.shelves|
      ensures w in held &&
        GivenTo(after, w) <= if w == who then held[who] + Above(before.last, after.last) else held[w]
    {
      assert GivenTo(before, w) <= held[w];
    }
  }

  lemma HostsAsked(before: Snap, after: Snap)
    requires |after.shelves| == |before.shelves| && before.last <= after.last
    requires forall p :: p in after.owner ==> (p in before.owner || p > before.last) && p <= after.last
    requires forall n :: 0 <= n < |before.shelves| ==> after.shelves[n] == before.shelves[n]
    ensures Asked(HOSTS, before, after)
  {
  }

  // The service watcher an event is for, if any.
  function Addressee(e: Event): Option<nat> {
    match e
    case HostTick => None
    case ServiceChange(n, _) => Some(n)
    case PodChange(n, _) => Some(n)
  }

  // The ports of the service name one protocol each when the event is handled.
  ghost predicate SinglePorts(e: Event, shelf: Shelf) {
    match e
    case HostTick => true
    case ServiceChange(_, service) => AllPortsSingle(PortsAfter(service, shelf.ports))
    case PodChange(_, _) => AllPortsSingle(shelf.ports)
  }

  ghost predicate EventOutcome(e: Event, shelf: Shelf, last: nat, note: Note, ifaces: seq<Iface>, tight: bool) {
    match e
    case HostTick => true
    case ServiceChange(_, service) =>
      && Wants(service, shelf.ports, shelf.percentage, shelf.hash, note.desired)
      && ServiceOutcome(service, shelf.ports, shelf.fromPods, shelf.fromServices, last, note.desired, ifaces,
           note.handled, tight)
    case PodChange(_, pod) =>
      PodOutcome(pod, shelf.ports, shelf.fromPods, shelf.waiting, last, ifaces, note.handled, tight)
  }

  // One event without tc failures: only the ledger of the watcher concerned can stop telling the truth.
  ghost predicate StepOk(e: Event, before: Snap, note: Note, after: Snap, ifaces: seq<Iface>,
                         hash: (string, Ip) -> nat)
  {
    && |after.shelves| == |before.shelves|
    && (forall m :: 0 <= m < |before.shelves| && Addressee(e) != Some(m) ==>
          (TightAt(after, m, ifaces) <==> TightAt(before, m, ifaces)) && after.shelves[m] == before.shelves[m])
    && (if e.HostTick? then
          && Judged(before.filters, Done(before.filters, {}), note.changed, note.seen, hash, before.answers)
          && (ExactAt(before, ifaces) && ifaces != [] ==> (ExactAt(after, ifaces) <==> TickSafe(before, note)))
        else
          && (ExactAt(after, ifaces) <==> ExactAt(before, ifaces))
          && (after.filters, after.owner) == (before.filters, before.owner)
          && (e.index < |before.shelves| && TightAt(before, e.index, ifaces) &&
              SinglePorts(e, before.shelves[e.index]) ==>
                EventOutcome(e, before.shelves[e.index], before.last, note, ifaces, TightAt(after, e.index, ifaces))))
  }

  ghost predicate Recorded(events: seq<Event>, log: seq<Snap>, notes: seq<Note>, ifaces: seq<Iface>,
                           hash: (string, Ip) -> nat)
  {
    && |log| == |events| + 1 && |notes| == |events|
    && forall j :: 0 <= j < |events| ==> StepOk(events[j], log[j], notes[j], log[j + 1], ifaces, hash)
  }

  lemma NobodyChanged(filters: map<Host, seq<TcFilter>>, changed: seq<Host>, seen: map<Host, Option<seq<Ip>>>,
                      hash: (string, Ip) -> nat, answers: seq<Option<seq<Ip>>>)
    requires seen.Keys == filters.Keys && Judged(filters, Done(filters, {}), changed, seen, hash, answers)
    ensures filters == map[] ==> changed == []
  {
    ChangedAreWatched(filters, changed, seen, hash, answers);
    if changed != [] {
      assert changed[0] in Elements(changed);
    }
  }

  lemma IdleStep(e: Event, s: Snap, note: Note, ifaces: seq<Iface>, hash: (string, Ip) -> nat)
    requires !e.HostTick? && e.index >= |s.shelves|
    ensures StepOk(e, s, note, s, ifaces, hash)
  {
  }

  // These priorities were given out before, to somebody else.
  ghost predicate Elsewhere(given: set<nat>, mine: set<nat>, base: nat) {
    given !! mine && forall p :: p in given ==> p <= base
  }

  // Another watcher's work leaves a service's filters alone.
  lemma TightFrame(before: Snap, after: Snap, n: nat, ifaces: seq<Iface>, mine: set<nat>, base: nat)
    requires n < |before.shelves| && n < |after.shelves| && after.shelves[n] == before.shelves[n]
    requires Churned(before.kernel, after.kernel, mine, base, Disrupted)
    requires Elsewhere(before.shelves[n].given, mine, base)
    ensures TightAt(after, n, ifaces) <==> TightAt(before, n, ifaces)
  {
    hide Priorities, Ascending;
    forall q, i | q in before.shelves[n].given ensures Lookup(after.kernel, i, q) == Lookup(before.kernel, i, q) {
    }
  }

  // And a service watcher's work leaves the hosts' filters alone.
  lemma ExactFrame(before: Snap, after: Snap, ifaces: seq<Iface>, mine: set<nat>, base: nat)
    requires after.filters == before.filters && after.owner == before.owner
    requires Churned(before.kernel, after.kernel, mine, base, Disrupted)
    requires Elsewhere(before.owner.Keys, mine, base)
    ensures ExactAt(after, ifaces) <==> ExactAt(before, ifaces)
  {
    hide HostLive;
    forall h, list ensures HostLive(before.kernel, ifaces, h, list, before.owner, Disrupted) <==>
        HostLive(after.kernel, ifaces, h, list, before.owner, Disrupted)
    {
      if HostLive(before.kernel, ifaces, h, list, before.owner, Disrupted) {
        HostLiveFrame(before.kernel, after.kernel, ifaces, h, list, before.owner, before.owner, Disrupted);
      } else if HostLive(after.kernel, ifaces, h, list, before.owner, Disrupted) {
        HostLiveFrame(after.kernel, before.kernel, ifaces, h, list, before.owner, before.owner, Disrupted);
      }
    }
  }

  lemma ServiceStepOk(e: Event, n: nat, before: Snap, note: Note, after: Snap, ifaces: seq<Iface>,
                      hash: (string, Ip) -> nat, mine: set<nat>, base: nat)
    requires Addressee(e) == Some(n) && n < |before.shelves| == |after.shelves|
    requires forall m :: 0 <= m < |before.shelves| && m != n ==> after.shelves[m] == before.shelves[m]
    requires after.filters == before.filters && after.owner == before.owner
    requires Churned(before.kernel, after.kernel, mine, base, Disrupted)
    requires Elsewhere(before.owner.Keys, mine, base)
    requires forall m :: 0 <= m < |before.shelves| && m != n ==> Elsewhere(before.shelves[m].given, mine, base)
    requires TightAt(before, n, ifaces) && SinglePorts(e, before.shelves[n]) ==>
      EventOutcome(e, before.shelves[n], before.last, note, ifaces, TightAt(after, n, ifaces))
    ensures StepOk(e, before, note, after, ifaces, hash)
  {
    hide TightAt, ExactAt, EventOutcome, SinglePorts, Churned, Elsewhere;
    ExactFrame(before, after, ifaces, mine, base);
    forall m | 0 <= m < |before.shelves| && m != n ensures TightAt(after, m, ifaces) <==> TightAt(before, m, ifaces) {
      TightFrame(before, after, m, ifaces, mine, base);
    }
  }

  // The hosts' ledger is exact throughout a run exactly when every turn of their watcher finds the changed hosts
  // servable, or nothing to lose; the events of the services do not matter.
  lemma {:induction false} ExactThroughout(events: seq<Event>, log: seq<Snap>, notes: seq<Note>, ifaces: seq<Iface>,
                                           hash: (string, Ip) -> nat)
    requires Recorded(events, log, notes, ifaces, hash) && ifaces != [] && ExactAt(log[0], ifaces)
    ensures (forall j :: 0 <= j < |log| ==> ExactAt(log[j], ifaces)) <==>
            TicksSafe(events, log, notes)
  {
    hide ExactAt, TightAt, TickSafe, EventOutcome, SinglePorts;
    if TicksSafe(events, log, notes) {
      for n := 0 to |events|
        invariant forall j :: 0 <= j <= n ==> ExactAt(log[j], ifaces)
      {
        assert StepOk(events[n], log[n], notes[n], log[n + 1], ifaces, hash);
      }
    } else if forall j :: 0 <= j < |log| ==> ExactAt(log[j], ifaces) {
      forall j | 0 <= j < |events| && events[j].HostTick? ensures TickSafe(log[j], notes[j]) {
        assert StepOk(events[j], log[j], notes[j], log[j + 1], ifaces, hash);
      }
    }
  }

  // When an event for the n-th service comes, its ports name one protocol each.
  ghost predicate Plainly(e: Event, s: Snap, n: nat) {
    Addressee(e) == Some(n) && n < |s.shelves| ==> SinglePorts(e, s.shelves[n])
  }

  // The event is sound, and priorities do not last for it.
  ghost predicate Starves(e: Event, shelf: Shelf, last: nat, note: Note) {
    match e
    case HostTick => false
    case ServiceChange(_, service) =>
      && !ServiceBroken(service)
      && !ServiceFits(service, PortsAfter(service, shelf.ports), shelf.fromPods, last, note.desired)
    case PodChange(_, pod) =>
      !PodBroken(pod, shelf.ports) && !PodFits(pod, shelf.ports, shelf.fromPods, shelf.waiting, last)
  }

  // And when they run out, no unlisted filter is left.
  ghost predicate StopsClean(e: Event, shelf: Shelf, last: nat, note: Note) {
    match e
    case HostTick => true
    case ServiceChange(_, _) => CleanStop(shelf.fromPods, last, note.desired)
    case PodChange(_, _) => !Room(last, 1)
  }

  ghost predicate TicksSafe(events: seq<Event>, log: seq<Snap>, notes: seq<Note>)
    requires |log| == |events| + 1 && |notes| == |events|
  {
    forall j :: 0 <= j < |events| && events[j].HostTick? ==> TickSafe(log[j], notes[j])
  }

  ghost predicate WellServed(events: seq<Event>, log: seq<Snap>, notes: seq<Note>, n: nat)
    requires |log| == |events| + 1 && |notes| == |events|
  {
    forall j :: 0 <= j < |events| ==> Plainly(events[j], log[j], n) && Harmless(events[j], log[j], notes[j], n)
  }

  // The ledger an event deletes from itself, if any.
  ghost function Purged(e: Event, shelf: Shelf, last: nat, note: Note): seq<ServiceFilter> {
    match e
    case HostTick => []
    case ServiceChange(_, service) =>
      if ServicePurges(service) || Starves(e, shelf, last, note) then shelf.fromServices else []
    case PodChange(_, pod) =>
      if PodBroken(pod, shelf.ports) || Starves(e, shelf, last, note) then shelf.fromPods else []
  }

  // The event deletes no ledger of more than two filters from itself, and leaves none behind for lack of priorities.
  ghost predicate Harmless(e: Event, s: Snap, note: Note, n: nat) {
    Addressee(e) == Some(n) && n < |s.shelves| ==>
      && |Purged(e, s.shelves[n], s.last, note)| <= 2
      && (Starves(e, s.shelves[n], s.last, note) ==> StopsClean(e, s.shelves[n], s.last, note))
  }

  ghost predicate PlainPurge(e: Event, s: Snap, note: Note, n: nat) {
    Addressee(e) == Some(n) && n < |s.shelves| ==> DistinctServices(Purged(e, s.shelves[n], s.last, note))
  }

  lemma TightNext(e: Event, before: Snap, note: Note, after: Snap, ifaces: seq<Iface>, hash: (string, Ip) -> nat,
                  n: nat)
    requires StepOk(e, before, note, after, ifaces, hash) && Plainly(e, before, n)
    requires n < |before.shelves| && TightAt(before, n, ifaces)
    ensures Harmless(e, before, note, n) ==> TightAt(after, n, ifaces)
    ensures ifaces != [] && PlainPurge(e, before, note, n) && TightAt(after, n, ifaces) ==> Harmless(e, before, note, n)
  {
    hide TightAt, ExactAt, Wants, ServiceFits, PodFits, SinglePorts, Judged, TickSafe, DistinctServices, CleanStop;
  }

  // Likewise the ledgers of the n-th service, when its ports name one protocol each: they are tight throughout if no
  // event deletes a ledger of more than two filters from itself or leaves an unlisted filter for lack of priorities
  // and, without repeated services, only if.
  lemma {:induction false} TightThroughout(events: seq<Event>, log: seq<Snap>, notes: seq<Note>, ifaces: seq<Iface>,
                                           hash: (string, Ip) -> nat, n: nat)
    requires Recorded(events, log, notes, ifaces, hash) && n < |log[0].shelves| && TightAt(log[0], n, ifaces)
    requires forall j :: 0 <= j < |events| ==> Plainly(events[j], log[j], n)
    ensures (forall j :: 0 <= j < |events| ==> Harmless(events[j], log[j], notes[j], n)) ==>
      forall j :: 0 <= j < |log| ==> TightAt(log[j], n, ifaces)
    ensures ifaces != [] && (forall j :: 0 <= j < |events| ==> PlainPurge(events[j], log[j], notes[j], n)) ==>
      ((forall j :: 0 <= j < |log| ==> TightAt(log[j], n, ifaces)) <==>
       (forall j :: 0 <= j < |events| ==> Harmless(events[j], log[j], notes[j], n)))
  {
    hide StepOk, Plainly, Harmless, PlainPurge, TightAt;
    for m := 0 to |events|
      invariant |log[m].shelves| == |log[0].shelves|
      invariant (forall j :: 0 <= j < m ==> Harmless(events[j], log[j], notes[j], n)) ==>
        forall j :: 0 <= j <= m ==> TightAt(log[j], n, ifaces)
      invariant ifaces != [] && (forall j :: 0 <= j < m ==> PlainPurge(events[j], log[j], notes[j], n)) ==>
        (forall j :: 0 <= j <= m ==> TightAt(log[j], n, ifaces)) ==>
        forall j :: 0 <= j < m ==> Harmless(events[j], log[j], notes[j], n)
    {
      SameShelves(events[m], log[m], notes[m], log[m + 1], ifaces, hash);
      if TightAt(log[m], n, ifaces) {
        assert StepOk(events[m], log[m], notes[m], log[m + 1], ifaces, hash) && Plainly(events[m], log[m], n);
        TightNext(events[m], log[m], notes[m], log[m + 1], ifaces, hash, n);
      }
    }
  }

  lemma SameShelves(e: Event, before: Snap, note: Note, after: Snap, ifaces: seq<Iface>, hash: (string, Ip) -> nat)
    requires StepOk(e, before, note, after, ifaces, hash)
    ensures |after.shelves| == |before.shelves|
  {
  }

  lemma AliveSplit(alive: seq<bool>, m: nat, n: nat, served: nat)
    requires AliveTurns(alive, m, served)
    ensures served == m <==> AliveFor(alive, m)
    ensures AliveFor(alive, m) ==> (AliveFor(Skip(alive, m), n) <==> AliveFor(alive, m + n))
    ensures AliveFor(alive, m + n) ==> AliveFor(alive, m)
  {
    forall j: nat ensures AliveAt(Skip(alive, m), j) <==> AliveAt(alive, m + j) {
    }
    if AliveFor(alive, m) && AliveFor(Skip(alive, m), n) {
      forall j | m <= j < m + n ensures AliveAt(alive, j) {
        assert AliveAt(Skip(alive, m), j - m);
      }
    }
  }

  lemma NoHosts(k: Kernel, ifaces: seq<Iface>, hash: (string, Ip) -> nat, answers: seq<Option<seq<Ip>>>,
                filters: map<Host, seq<TcFilter>>, owner: map<nat, Host>)
    requires filters == map[] && owner == map[]
    ensures AllFollow([], 0, hash, answers, filters, k, ifaces, Disrupted) && ExactFor(k, ifaces, filters, owner)
  {
  }

  lemma NoneDisrupted(k: Kernel)
    requires AllSpared(k)
    ensures !AnyDisrupted(k)
  {
  }

  ghost predicate AnyDisrupted(k: Kernel) {
    exists i, q: nat :: Lookup(k, i, q).Some? && Lookup(k, i, q).value.band == Disrupted
  }

  /* ---------- the same, command by command ---------- */

  ghost predicate Separate(s: Shared, boundary: nat) {
    && boundary <= s.last
    && (forall w, p :: w in s.given && p in s.given[w] ==> boundary < p <= s.last)
    && (forall v, w :: v in s.given && w in s.given && v != w ==> s.given[v] !! s.given[w])
  }

  lemma IssueKeepsSeal(s: Shared, w: nat, c: Command, k0: Kernel, boundary: nat)
    requires Separate(s, boundary) && Sealed(s.kernel, k0, boundary) && Allowed(s, w, c)
    ensures Separate(Issue(s, w, c), boundary) && Sealed(Issue(s, w, c).kernel, k0, boundary)
  {
    match c
    case Ask =>
    case AddAt(i, p, m) => PutLookup(s.kernel, i, p, Filter(m, Disrupted));
    case DeleteAt(i, p) => DropLookup(s.kernel, i, p);
  }

  // In every interleaving the seal holds, and a priority asked for by one watcher is never held by another.
  lemma {:induction false} InterleavingsKeepSeal(s: Shared, run: seq<(nat, Command)>, s': Shared, k0: Kernel,
                                                 boundary: nat)
    requires Separate(s, boundary) && Sealed(s.kernel, k0, boundary) && Interleaved(s, run, s')
    ensures Separate(s', boundary) && Sealed(s'.kernel, k0, boundary) && s.last <= s'.last
    decreases |run|
  {
    hide Sealed, Separate;
    if run != [] {
      IssueKeepsSeal(s, run[0].0, run[0].1, k0, boundary);
      InterleavingsKeepSeal(Issue(s, run[0].0, run[0].1), run[1..], s', k0, boundary);
    }
  }

  lemma NobodySeparate(k: Kernel, boundary: nat, n: nat)
    ensures Separate(Shared(k, boundary, Nobody(n)), boundary)
  {
  }

  lemma SealedIsSealed(k: Kernel, k0: Kernel, boundary: nat)
    requires Sealed(k, k0, boundary)
    ensures Sealed(k0, k0, boundary)
  {
  }

  lemma NoCommands(s: Shared)
    ensures Interleaved(s, [], s)
  {
  }

  // What is shared after these commands.
  function After(s: Shared, run: seq<(nat, Command)>): Shared {
    if run == [] then s else Issue(After(s, run[..|run| - 1]), run[|run| - 1].0, run[|run| - 1].1)
  }

  // The commands are allowed and lead to this, and the seal holds after every one of them.
  ghost predicate SealedThroughout(start: Shared, run: seq<(nat, Command)>, end: Shared, k0: Kernel, boundary: nat) {
    && After(start, run) == end && Interleaved(start, run, end)
    && (forall n :: 0 <= n <= |run| ==> Sealed(After(start, run[..n]).kernel, k0, boundary))
  }

  // Every beginning of an interleaving is one.
  lemma {:induction false} InterleavedInit(s: Shared, run: seq<(nat, Command)>, s': Shared)
    requires Interleaved(s, run, s')
    ensures After(s, run) == s'
    ensures run != [] ==> Interleaved(s, run[..|run| - 1], After(s, run[..|run| - 1]))
    decreases |run|
  {
    if run != [] {
      var s1 := Issue(s, run[0].0, run[0].1);
      InterleavedInit(s1, run[1..], s');
      AfterFirst(s, run);
      if |run| > 1 {
        var n := |run| - 1;
        assert run[..n][1..] == run[1..][..n - 1];
        AfterFirst(s, run[..n]);
      }
    }
  }

  lemma {:induction false} AfterFirst(s: Shared, run: seq<(nat, Command)>)
    requires run != []
    ensures After(s, run) == After(Issue(s, run[0].0, run[0].1), run[1..])
    decreases |run|
  {
    if |run| > 1 {
      var n := |run| - 1;
      assert run[1..][..n - 1] == run[..n][1..];
      AfterFirst(s, run[..n]);
    }
  }

  lemma SealedAfter(start: Shared, run: seq<(nat, Command)>, end: Shared, k0: Kernel, boundary: nat, n: nat)
    requires SealedThroughout(start, run, end, k0, boundary) && n <= |run|
    ensures Sealed(After(start, run[..n]).kernel, k0, boundary)
  {
  }

  lemma {:induction false} CommandsKeepSeal(s: Shared, run: seq<(nat, Command)>, s': Shared, k0: Kernel, boundary: nat)
    requires Separate(s, boundary) && Sealed(s.kernel, k0, boundary) && Interleaved(s, run, s')
    ensures SealedThroughout(s, run, s', k0, boundary)
    decreases |run|
  {
    hide Sealed, Separate, Interleaved;
    InterleavedInit(s, run, s');
    InterleavingsKeepSeal(s, run, s', k0, boundary);
    assert run[..|run|] == run;
    if run != [] {
      var init := run[..|run| - 1];
      CommandsKeepSeal(s, init, After(s, init), k0, boundary);
      forall n | 0 <= n < |run| ensures Sealed(After(s, run[..n]).kernel, k0, boundary) {
        assert run[..n] == init[..n];
      }
    }
  }
}
