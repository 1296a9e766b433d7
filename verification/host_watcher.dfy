// The watcher of hosts (injector/network_disruption.go, addFiltersForHosts, handleFiltersForHosts and
// watchHostChanges). Answers of the resolver and the state of the injector's context are read off scripts that are
// left arbitrary.
module HostWatching {
  import opened DisruptionTypes
  import opened Selection
  import opened Text
  import opened TrafficControl
  import opened HostFilters

  datatype Adding = AllAdded | Cancelled | Failing

  // The hash of an IP also depends on the host's name.
  function Seeded(hash: (string, Ip) -> nat, name: string): Ip -> nat {
    ip => hash(name, ip)
  }

  // How many of n IPs a host gets filters for.
  function NarrowedCount(h: Host, n: nat): nat {
    if h.percentage.Some? && !KeepsAll(n, h.percentage.value) then CountFor(n, h.percentage.value) else n
  }

  // All the IPs a host resolves to, or a share of them.
  ghost predicate Narrowed(h: Host, hash: (string, Ip) -> nat, all: seq<Ip>, ips: seq<Ip>) {
    && |ips| == NarrowedCount(h, |all|)
    && if h.percentage.Some? && h.percentage.value < 100 then
         && Elements(ips) <= Elements(all)
         && (Distinct(all) && DistinctHashes(Elements(all), Seeded(hash, h.name)) ==>
               Elements(ips) == Share(Elements(all), Seeded(hash, h.name), h.percentage.value))
       else ips == all
  }

  /* ---------- when hosts can be served ---------- */

  // How many filters a host asks for.
  function Demand(h: Host, ips: seq<Ip>): nat {
    NarrowedCount(h, |ips|) * |AllProtocols(h.protocol)|
  }

  lemma {:induction false} PlanLength(h: Host, ips: seq<Ip>)
    ensures |Plan(h, ips)| == |ips| * |AllProtocols(h.protocol)|
  {
    hide AllProtocols;
    if ips != [] {
      PlanLength(h, ips[..|ips| - 1]);
    }
  }

  function Answer(answers: seq<Option<seq<Ip>>>, n: nat): Option<seq<Ip>> {
    if n < |answers| then answers[n] else None
  }

  predicate AliveAt(alive: seq<bool>, n: nat) {
    n < |alive| ==> alive[n]
  }

  function Skip<T>(s: seq<T>, n: nat): seq<T> {
    if n <= |s| then s[n..] else []
  }

  // How many filters the first n hosts ask for.
  function DemandUpTo(hosts: seq<Host>, answers: seq<Option<seq<Ip>>>, n: nat): nat
    requires n <= |hosts|
  {
    if n == 0 then 0 else
      var answer := Answer(answers, n - 1);
      DemandUpTo(hosts, answers, n - 1) + if answer.Some? then Demand(hosts[n - 1], answer.value) else 0
  }

  // The context is alive, the resolver answers, and there is room for the filters of the n-th host.
  predicate TurnServed(hosts: seq<Host>, answers: seq<Option<seq<Ip>>>, alive: seq<bool>, last: nat, n: nat)
    requires n < |hosts|
  {
    && AliveAt(alive, n) && Answer(answers, n).Some?
    && Room(last + DemandUpTo(hosts, answers, n), Demand(hosts[n], Answer(answers, n).value))
  }

  // The n-th host is the first that cannot be served, if any.
  predicate ServedTo(hosts: seq<Host>, answers: seq<Option<seq<Ip>>>, alive: seq<bool>, last: nat, n: nat) {
    && n <= |hosts| && (forall m :: 0 <= m < n ==> TurnServed(hosts, answers, alive, last, m))
    && (n < |hosts| ==> !TurnServed(hosts, answers, alive, last, n))
  }

  predicate Servable(hosts: seq<Host>, answers: seq<Option<seq<Ip>>>, alive: seq<bool>, last: nat) {
    forall n :: 0 <= n < |hosts| ==> TurnServed(hosts, answers, alive, last, n)
  }

  // The n-th host is the first that cannot be served, and no filter was added by then.
  predicate FailsWithout(hosts: seq<Host>, answers: seq<Option<seq<Ip>>>, alive: seq<bool>, last: nat, n: nat)
    requires n < |hosts|
  {
    && (forall m :: 0 <= m < n ==> TurnServed(hosts, answers, alive, last, m))
    && !TurnServed(hosts, answers, alive, last, n)
    && DemandUpTo(hosts, answers, n) == 0
    && (!AliveAt(alive, n) || Answer(answers, n).None? || !Room(last, 1))
  }

  // Serving the hosts fails before the first filter.
  predicate FailsAtOnce(hosts: seq<Host>, answers: seq<Option<seq<Ip>>>, alive: seq<bool>, last: nat) {
    exists n :: 0 <= n < |hosts| && FailsWithout(hosts, answers, alive, last, n)
  }

  // The first host that cannot be served decides.
  lemma FirstFailure(hosts: seq<Host>, answers: seq<Option<seq<Ip>>>, alive: seq<bool>, last: nat, n: nat)
    requires n < |hosts| && !TurnServed(hosts, answers, alive, last, n)
    requires forall m :: 0 <= m < n ==> TurnServed(hosts, answers, alive, last, m)
    ensures !Servable(hosts, answers, alive, last)
    ensures FailsAtOnce(hosts, answers, alive, last) <==> FailsWithout(hosts, answers, alive, last, n)
  {
    hide TurnServed, DemandUpTo, AliveAt, Answer;
    forall m | 0 <= m < |hosts| && FailsWithout(hosts, answers, alive, last, m) ensures m == n {
    }
  }

  /* ---------- what serving gives ---------- */

  // Every IP and protocol of the host has its filter on every interface.
  ghost predicate Covers(k: Kernel, ifaces: seq<Iface>, h: Host, ips: set<Ip>, band: Band) {
    forall ip, p, i :: ip in ips && p in AllProtocols(h.protocol) && i in ifaces ==>
      HasFilter(k, i, Filter(MatchFor(h, ip, p), band))
  }

  ghost predicate HasFilter(k: Kernel, i: Iface, f: Filter) {
    exists q: nat :: Lookup(k, i, q) == Some(f)
  }

  // The filters of a host, in the ledger and in the kernel, are for the IPs it resolved to.
  ghost predicate Follows(h: Host, hash: (string, Ip) -> nat, answer: Option<seq<Ip>>, list: seq<TcFilter>, k: Kernel,
                          ifaces: seq<Iface>, band: Band)
  {
    && (answer.Some? && exists ips :: Narrowed(h, hash, answer.value, ips) && Ips(list) == Elements(ips))
    && Covers(k, ifaces, h, Ips(list), band)
  }

  lemma {:induction false} PlanHas(h: Host, ips: seq<Ip>, ip: Ip, p: Protocol) returns (j: nat)
    requires ip in ips && p in AllProtocols(h.protocol)
    ensures j < |Plan(h, ips)| && Plan(h, ips)[j] == (ip, MatchFor(h, ip, p))
    decreases |ips|
  {
    var init, last, ps := ips[..|ips| - 1], ips[|ips| - 1], AllProtocols(h.protocol);
    assert ips == init + [last];
    if ip == last {
      var m :| 0 <= m < |ps| && ps[m] == p;
      j := |Plan(h, init)| + m;
    } else {
      j := PlanHas(h, init, ip, p);
    }
  }

  lemma {:induction false} PlanAt(h: Host, ips: seq<Ip>, j: nat)
    requires j < |Plan(h, ips)|
    ensures Plan(h, ips)[j].0 in ips
    decreases |ips|
  {
    var init := ips[..|ips| - 1];
    if j < |Plan(h, init)| {
      PlanAt(h, init, j);
    }
  }

  lemma NotedIps(list: seq<TcFilter>, base: nat, h: Host, ips: seq<Ip>)
    requires Noted(list, base, Plan(h, ips))
    ensures Ips(list) == Elements(ips)
  {
    forall ip | ip in ips ensures ip in Ips(list) {
      SomeProtocolOf(h);
      var j := PlanHas(h, ips, ip, AllProtocols(h.protocol)[0]);
      assert list[j] in list;
    }
    forall f | f in list ensures f.ip in ips {
      var j :| 0 <= j < |list| && list[j] == f;
      PlanAt(h, ips, j);
    }
  }

  lemma SomeProtocolOf(h: Host)
    ensures |AllProtocols(h.protocol)| >= 1
  {
  }

  lemma InstalledCovers(k: Kernel, k': Kernel, ifaces: seq<Iface>, base: nat, h: Host, ips: seq<Ip>, band: Band)
    requires Installed(k, k', ifaces, base, Plan(h, ips), band)
    ensures Covers(k', ifaces, h, Elements(ips), band)
  {
    forall ip, p, i | ip in Elements(ips) && p in AllProtocols(h.protocol) && i in ifaces
      ensures HasFilter(k', i, Filter(MatchFor(h, ip, p), band))
    {
      var j := PlanHas(h, ips, ip, p);
      assert Lookup(k', i, base + 1 + j) == Some(Filter(MatchFor(h, ip, p), band));
    }
  }

  lemma FollowsNow(h: Host, hash: (string, Ip) -> nat, answer: Option<seq<Ip>>, ips: seq<Ip>, list: seq<TcFilter>,
                   k: Kernel, k': Kernel, ifaces: seq<Iface>, base: nat, band: Band)
    requires answer.Some? && Narrowed(h, hash, answer.value, ips)
    requires Installed(k, k', ifaces, base, Plan(h, ips), band) && Noted(list, base, Plan(h, ips))
    ensures Follows(h, hash, answer, list, k', ifaces, band)
  {
    hide Installed, Noted, Narrowed, Covers;
    NotedIps(list, base, h, ips);
    InstalledCovers(k, k', ifaces, base, h, ips, band);
  }

  // Filters added above the counter take nothing away.
  lemma FollowsStill(h: Host, hash: (string, Ip) -> nat, answer: Option<seq<Ip>>, list: seq<TcFilter>, k: Kernel,
                     k': Kernel, ifaces: seq<Iface>, last: nat, band: Band)
    requires Follows(h, hash, answer, list, k, ifaces, band) && Churned(k, k', {}, last, band)
    requires forall i, q: nat :: Lookup(k, i, q).Some? ==> q <= last
    ensures Follows(h, hash, answer, list, k', ifaces, band)
  {
    hide Narrowed;
    forall ip, p, i | ip in Ips(list) && p in AllProtocols(h.protocol) && i in ifaces
      ensures HasFilter(k', i, Filter(MatchFor(h, ip, p), band))
    {
      assert HasFilter(k, i, Filter(MatchFor(h, ip, p), band));
      var q: nat :| Lookup(k, i, q) == Some(Filter(MatchFor(h, ip, p), band));
      assert Lookup(k', i, q) == Lookup(k, i, q);
    }
  }

  // The first n hosts follow their answers.
  ghost predicate AllFollow(hosts: seq<Host>, n: nat, hash: (string, Ip) -> nat, answers: seq<Option<seq<Ip>>>,
                            ledger: map<Host, seq<TcFilter>>, k: Kernel, ifaces: seq<Iface>, band: Band)
  {
    n <= |hosts| && forall j :: 0 <= j < n ==>
      hosts[j] in ledger && Follows(hosts[j], hash, Answer(answers, j), ledger[hosts[j]], k, ifaces, band)
  }

  lemma AllFollowMore(hosts: seq<Host>, n: nat, hash: (string, Ip) -> nat, answers: seq<Option<seq<Ip>>>,
                      ledger: map<Host, seq<TcFilter>>, list: seq<TcFilter>, k: Kernel, k': Kernel,
                      ifaces: seq<Iface>, last: nat, band: Band)
    requires AllFollow(hosts, n, hash, answers, ledger, k, ifaces, band) && n < |hosts| && Distinct(hosts)
    requires Churned(k, k', {}, last, band) && forall i, q: nat :: Lookup(k, i, q).Some? ==> q <= last
    requires Follows(hosts[n], hash, Answer(answers, n), list, k', ifaces, band)
    ensures AllFollow(hosts, n + 1, hash, answers, ledger[hosts[n] := list], k', ifaces, band)
  {
    hide Follows, Churned;
    forall j | 0 <= j < n ensures Follows(hosts[j], hash, Answer(answers, j), ledger[hosts[j]], k', ifaces, band) {
      FollowsStill(hosts[j], hash, Answer(answers, j), ledger[hosts[j]], k, k', ifaces, last, band);
    }
  }

  // The IPs the host resolved to are covered.
  ghost predicate Covered(h: Host, hash: (string, Ip) -> nat, answer: Option<seq<Ip>>, k: Kernel, ifaces: seq<Iface>,
                          band: Band)
  {
    answer.Some? && exists ips :: Narrowed(h, hash, answer.value, ips) && Covers(k, ifaces, h, Elements(ips), band)
  }

  // Some narrowing of the host's answer keeps this IP.
  ghost predicate MayKeepIp(h: Host, hash: (string, Ip) -> nat, answer: Option<seq<Ip>>, ip: Ip) {
    answer.Some? && exists ips :: Narrowed(h, hash, answer.value, ips) && ip in ips
  }

  // The filter is for an IP the host resolved to, in one of its protocols.
  ghost predicate ForHost(h: Host, hash: (string, Ip) -> nat, answer: Option<seq<Ip>>, m: Match) {
    exists ip, p :: MayKeepIp(h, hash, answer, ip) && p in AllProtocols(h.protocol) && m == MatchFor(h, ip, p)
  }

  // The filter is for one of the first n hosts.
  ghost predicate ForServed(hosts: seq<Host>, n: nat, hash: (string, Ip) -> nat, answers: seq<Option<seq<Ip>>>,
                            m: Match)
  {
    n <= |hosts| && exists j :: 0 <= j < n && ForHost(hosts[j], hash, Answer(answers, j), m)
  }

  // The first n hosts are covered, and there is no filter above base but theirs.
  ghost predicate CoveredUpTo(hosts: seq<Host>, n: nat, hash: (string, Ip) -> nat, answers: seq<Option<seq<Ip>>>,
                              k: Kernel, ifaces: seq<Iface>, base: nat, band: Band)
  {
    && n <= |hosts|
    && (forall j :: 0 <= j < n ==> Covered(hosts[j], hash, Answer(answers, j), k, ifaces, band))
    && (forall i, q: nat :: q > base && Lookup(k, i, q).Some? ==>
          i in ifaces && ForServed(hosts, n, hash, answers, Lookup(k, i, q).value.m))
  }

  lemma CoveredNone(hosts: seq<Host>, hash: (string, Ip) -> nat, answers: seq<Option<seq<Ip>>>, k: Kernel,
                    ifaces: seq<Iface>, base: nat, band: Band)
    requires forall i, q: nat :: Lookup(k, i, q).Some? ==> q <= base
    ensures CoveredUpTo(hosts, 0, hash, answers, k, ifaces, base, band)
  {
  }

  lemma CoveredMore(hosts: seq<Host>, n: nat, hash: (string, Ip) -> nat, answers: seq<Option<seq<Ip>>>, k: Kernel,
                    k': Kernel, ifaces: seq<Iface>, base: nat, last: nat, ips: seq<Ip>, band: Band)
    requires CoveredUpTo(hosts, n, hash, answers, k, ifaces, base, band) && n < |hosts| && base <= last
    requires Answer(answers, n).Some? && Narrowed(hosts[n], hash, Answer(answers, n).value, ips)
    requires Installed(k, k', ifaces, last, Plan(hosts[n], ips), band)
    requires forall i, q: nat :: Lookup(k, i, q).Some? ==> q <= last
    ensures CoveredUpTo(hosts, n + 1, hash, answers, k', ifaces, base, band)
  {
    hide Covered, ForServed, Plan, Narrowed;
    forall j | 0 <= j < n ensures Covered(hosts[j], hash, Answer(answers, j), k', ifaces, band) {
      CoveredStill(hosts[j], hash, Answer(answers, j), k, k', ifaces, last, Plan(hosts[n], ips), band);
    }
    CoveredNow(hosts[n], hash, Answer(answers, n), ips, k, k', ifaces, last, band);
    forall i, q: nat | q > base && Lookup(k', i, q).Some?
      ensures i in ifaces && ForServed(hosts, n + 1, hash, answers, Lookup(k', i, q).value.m)
    {
      if q <= last {
        assert Lookup(k', i, q) == Lookup(k, i, q);
        ForMore(hosts, n, hash, answers, Lookup(k, i, q).value.m);
      } else {
        PlanIsFor(hosts, n, hash, answers, ips, q - last - 1);
      }
    }
  }

  lemma ForMore(hosts: seq<Host>, n: nat, hash: (string, Ip) -> nat, answers: seq<Option<seq<Ip>>>, m: Match)
    requires n < |hosts| && ForServed(hosts, n, hash, answers, m)
    ensures ForServed(hosts, n + 1, hash, answers, m)
  {
    hide ForHost;
  }

  lemma PlanIsFor(hosts: seq<Host>, n: nat, hash: (string, Ip) -> nat, answers: seq<Option<seq<Ip>>>, ips: seq<Ip>,
                  j: nat)
    requires n < |hosts| && j < |Plan(hosts[n], ips)|
    requires Answer(answers, n).Some? && Narrowed(hosts[n], hash, Answer(answers, n).value, ips)
    ensures ForServed(hosts, n + 1, hash, answers, Plan(hosts[n], ips)[j].1)
  {
    hide Narrowed;
    var ip, p := PlanMatch(hosts[n], ips, j);
    assert MayKeepIp(hosts[n], hash, Answer(answers, n), ip);
    assert ForHost(hosts[n], hash, Answer(answers, n), Plan(hosts[n], ips)[j].1);
  }

  lemma {:induction false} PlanMatch(h: Host, ips: seq<Ip>, j: nat) returns (ip: Ip, p: Protocol)
    requires j < |Plan(h, ips)|
    ensures ip in ips && p in AllProtocols(h.protocol) && Plan(h, ips)[j].1 == MatchFor(h, ip, p)
    decreases |ips|
  {
    var init, last, ps := ips[..|ips| - 1], ips[|ips| - 1], AllProtocols(h.protocol);
    if j < |Plan(h, init)| {
      ip, p := PlanMatch(h, init, j);
    } else {
      ip, p := last, ps[j - |Plan(h, init)|];
    }
  }

  lemma CoveredNow(h: Host, hash: (string, Ip) -> nat, answer: Option<seq<Ip>>, ips: seq<Ip>, k: Kernel, k': Kernel,
                   ifaces: seq<Iface>, base: nat, band: Band)
    requires answer.Some? && Narrowed(h, hash, answer.value, ips) && Installed(k, k', ifaces, base, Plan(h, ips), band)
    ensures Covered(h, hash, answer, k', ifaces, band)
  {
    hide Narrowed, Covers;
    InstalledCovers(k, k', ifaces, base, h, ips, band);
  }

  lemma CoveredStill(h: Host, hash: (string, Ip) -> nat, answer: Option<seq<Ip>>, k: Kernel, k': Kernel,
                     ifaces: seq<Iface>, last: nat, plan: seq<(Ip, Match)>, band: Band)
    requires Covered(h, hash, answer, k, ifaces, band) && Installed(k, k', ifaces, last, plan, band)
    requires forall i, q: nat :: Lookup(k, i, q).Some? ==> q <= last
    ensures Covered(h, hash, answer, k', ifaces, band)
  {
    hide Narrowed;
    var ips :| Narrowed(h, hash, answer.value, ips) && Covers(k, ifaces, h, Elements(ips), band);
    forall ip, p, i | ip in Elements(ips) && p in AllProtocols(h.protocol) && i in ifaces
      ensures HasFilter(k', i, Filter(MatchFor(h, ip, p), band))
    {
      assert HasFilter(k, i, Filter(MatchFor(h, ip, p), band));
      var q: nat :| Lookup(k, i, q) == Some(Filter(MatchFor(h, ip, p), band));
      assert Lookup(k', i, q) == Lookup(k, i, q);
    }
    assert Covers(k', ifaces, h, Elements(ips), band);
  }

  // The hosts served so far, and what the counter says about it.
  predicate ServedUpTo(hosts: seq<Host>, answers: seq<Option<seq<Ip>>>, alive: seq<bool>, base: nat, last: nat, n: nat)
  {
    && n <= |hosts| && last == base + DemandUpTo(hosts, answers, n)
    && forall m :: 0 <= m < n ==> TurnServed(hosts, answers, alive, base, m)
  }

  // The kernel has a new filter once a host asked for one.
  ghost predicate GainedUpTo(k: Kernel, ifaces: seq<Iface>, hosts: seq<Host>, answers: seq<Option<seq<Ip>>>,
                             base: nat, n: nat)
  {
    n <= |hosts| && (ifaces != [] ==> (Gained(k, ifaces, base) <==> DemandUpTo(hosts, answers, n) > 0))
  }

  lemma NoneServed(k: Kernel, ifaces: seq<Iface>, hosts: seq<Host>, answers: seq<Option<seq<Ip>>>, alive: seq<bool>,
                   base: nat)
    requires forall i, q: nat :: Lookup(k, i, q).Some? ==> q <= base
    ensures ServedUpTo(hosts, answers, alive, base, base, 0) && GainedUpTo(k, ifaces, hosts, answers, base, 0)
  {
  }

  lemma OneServed(k: Kernel, k': Kernel, ifaces: seq<Iface>, hosts: seq<Host>, answers: seq<Option<seq<Ip>>>,
                  alive: seq<bool>, base: nat, last: nat, n: nat, ips: seq<Ip>, list: seq<TcFilter>, band: Band)
    requires ServedUpTo(hosts, answers, alive, base, last, n) && GainedUpTo(k, ifaces, hosts, answers, base, n)
    requires n < |hosts|
    requires AliveAt(alive, n) && Answer(answers, n).Some?
    requires |ips| == NarrowedCount(hosts[n], |Answer(answers, n).value|)
    requires Room(last, Demand(hosts[n], Answer(answers, n).value))
    requires Placed(k, k', ifaces, last, last + |list|, Plan(hosts[n], ips), list, band)
    requires forall i, q: nat :: Lookup(k, i, q).Some? ==> q <= last
    ensures ServedUpTo(hosts, answers, alive, base, last + |list|, n + 1)
    ensures GainedUpTo(k', ifaces, hosts, answers, base, n + 1)
  {
    hide AllProtocols, NarrowedCount, Plan;
    PlanLength(hosts[n], ips);
    PlacedDone(k, k', ifaces, last, last + |list|, Plan(hosts[n], ips), list, band);
    assert DemandUpTo(hosts, answers, n + 1) == DemandUpTo(hosts, answers, n) + |list|;
    if ifaces != [] {
      GainedAfter(k, k', ifaces, base, last, Plan(hosts[n], ips), band);
    }
  }

  lemma GainedAfter(k: Kernel, k': Kernel, ifaces: seq<Iface>, base: nat, last: nat, plan: seq<(Ip, Match)>, band: Band)
    requires Installed(k, k', ifaces, last, plan, band) && base <= last && ifaces != []
    requires forall i, q: nat :: Lookup(k, i, q).Some? ==> q <= last
    ensures Gained(k', ifaces, base) <==> Gained(k, ifaces, base) || plan != []
  {
    if Gained(k, ifaces, base) {
      var i, q: nat :| i in ifaces && q > base && Lookup(k, i, q).Some?;
      assert Lookup(k', i, q).Some?;
    }
    if plan != [] {
      assert ifaces[0] in ifaces && Lookup(k', ifaces[0], last + 1).Some?;
    }
  }

  // Serving stops at the n-th host.
  lemma ServingStops(k: Kernel, k': Kernel, ifaces: seq<Iface>, hosts: seq<Host>, answers: seq<Option<seq<Ip>>>,
                     alive: seq<bool>, base: nat, last: nat, n: nat, band: Band)
    requires ServedUpTo(hosts, answers, alive, base, last, n) && GainedUpTo(k, ifaces, hosts, answers, base, n)
    requires n < |hosts|
    requires !(AliveAt(alive, n) && Answer(answers, n).Some? && Room(last, Demand(hosts[n], Answer(answers, n).value)))
    requires Churned(k, k', {}, last, band) && forall i, q: nat :: Lookup(k, i, q).Some? ==> q <= last
    requires ifaces != [] ==>
      (Gained(k', ifaces, last) <==> AliveAt(alive, n) && Answer(answers, n).Some? && Room(last, 1))
    ensures !Servable(hosts, answers, alive, base) && ServedTo(hosts, answers, alive, base, n)
    ensures ifaces != [] ==> (Gained(k', ifaces, base) <==> !FailsAtOnce(hosts, answers, alive, base))
  {
    hide AllProtocols, Demand, DemandUpTo, AliveAt, Answer;
    FirstFailure(hosts, answers, alive, base, n);
    if ifaces != [] && Gained(k, ifaces, base) {
      var i, q: nat :| i in ifaces && q > base && Lookup(k, i, q).Some?;
      assert Lookup(k', i, q).Some?;
    }
  }

  class HostWatcher {
    const tc: Tc
    const ifaces: seq<Iface>
    const hash: (string, Ip) -> nat       // the seed is made of the host name and the disruption's uid
    var filters: map<Host, seq<TcFilter>> // hostFilterMap
    var answers: seq<Option<seq<Ip>>>     // coming answers of the resolver, None for an error
    var alive: seq<bool>                  // coming states of the injector's context
    ghost var owner: map<nat, Host>

    constructor (tc: Tc, ifaces: seq<Iface>, hash: (string, Ip) -> nat)
      ensures this.tc == tc && this.ifaces == ifaces && filters == map[] && owner == map[]
      ensures this.hash == hash && answers == [] && alive == []
    {
      this.tc, this.ifaces, this.hash := tc, ifaces, hash;
      filters, answers, alive, owner := map[], [], [], map[];
    }

    method Resolve(h: Host) returns (ips: Option<seq<Ip>>)
      modifies this`answers
      ensures ips == Answer(old(answers), 0) && answers == Skip(old(answers), 1)
    {
      ips := None;
      if answers != [] {
        ips, answers := answers[0], answers[1..];
      }
    }

    method Narrow(h: Host, ips: seq<Ip>) returns (narrowed: seq<Ip>)
      ensures Narrowed(h, hash, ips, narrowed)
    {
      narrowed := ips;
      if h.percentage.Some? && h.percentage.value < 100 {
        narrowed := SelectByPercentage(ips, h.percentage.value, Seeded(hash, h.name));
      }
    }

    // One turn of addFiltersForHosts. Without tc failures it serves the host exactly when the context is alive, the
    // resolver answers and there is room; otherwise it leaves no filter behind unless there was room for one.
    method AddHost(h: Host, band: Band) returns (res: Adding, list: seq<TcFilter>, ips: seq<Ip>)
      requires tc.Valid() && tc.Logged() && (tc.turn.on ==> band == Disrupted)
      modifies this`answers, this`alive, tc
      ensures tc.Valid() && tc.Logged() && (old(tc.wrapped) ==> tc.wrapped)
      ensures !tc.wrapped ==> old(tc.last) <= tc.last && Churned(old(tc.kernel), tc.kernel, {}, old(tc.last), band)
      ensures !tc.wrapped && res == AllAdded ==>
        Placed(old(tc.kernel), tc.kernel, ifaces, old(tc.last), tc.last, Plan(h, ips), list, band)
      ensures Counted(old(tc.wrapped), old(tc.last), tc.wrapped, tc.last, if res == AllAdded then 0 else 1)
      ensures res == Cancelled <==> !AliveAt(old(alive), 0)
      ensures res == Cancelled ==> unchanged(tc)
      ensures alive == Skip(old(alive), 1) && (res != Cancelled ==> answers == Skip(old(answers), 1))
      ensures res == AllAdded ==> Answer(old(answers), 0).Some? && Narrowed(h, hash, Answer(old(answers), 0).value, ips)
      ensures old(tc.script) == [] ==> tc.script == []
      ensures !tc.wrapped && old(tc.script) == [] ==>
        (res == AllAdded <==>
           AliveAt(old(alive), 0) && Answer(old(answers), 0).Some? &&
           Room(old(tc.last), Demand(h, Answer(old(answers), 0).value)))
      ensures !tc.wrapped && old(tc.script) == [] && res != AllAdded && ifaces != [] ==>
        (Gained(tc.kernel, ifaces, old(tc.last)) <==>
           AliveAt(old(alive), 0) && Answer(old(answers), 0).Some? && Room(old(tc.last), 1))
    {
      hide AllProtocols, Plan, Churned, Tc.Valid, Tc.Logged;
      tc.Bounded();
      if !tc.wrapped {
        ChurnedNothing(tc.kernel, {}, tc.last, band);
      }
      var live := alive == [] || alive[0];
      alive := if alive == [] then [] else alive[1..];
      if !live {
        return Cancelled, [], [];
      }
      var resolved := Resolve(h);
      if resolved.None? {
        return Failing, [], [];
      }
      ips := Narrow(h, resolved.value);
      PlanLength(h, ips);
      var ok;
      ok, list := InstallHost(tc, ifaces, h, ips, band);
      res := if ok then AllAdded else Failing;
    }

    // addFiltersForHosts; asked tells for which host each new priority was asked, served how many hosts were served. A
    // context that is cancelled on the way is no error, and the hosts served by then keep their filters.
    method AddFiltersForHosts(hosts: seq<Host>, band: Band)
      returns (res: Adding, ledger: map<Host, seq<TcFilter>>, ghost asked: map<nat, Host>, ghost served: nat)
      requires tc.Valid() && tc.Logged() && (tc.turn.on ==> band == Disrupted)
      modifies this`answers, this`alive, tc
      ensures tc.Valid() && tc.Logged() && (old(tc.wrapped) ==> tc.wrapped)
      ensures !tc.wrapped ==>
        Grown(old(tc.kernel), tc.kernel, ifaces, hosts, ledger, asked, old(tc.last), tc.last, band)
      ensures ledger.Keys == if res == AllAdded then Elements(hosts) else {}
      ensures res == AllAdded && !tc.wrapped && Distinct(hosts) ==>
        AllFollow(hosts, |hosts|, hash, old(answers), ledger, tc.kernel, ifaces, band)
      ensures Counted(old(tc.wrapped), old(tc.last), tc.wrapped, tc.last, if res == AllAdded then 0 else 1)
      ensures res != Failing ==> (res == AllAdded <==> AliveFor(old(alive), |hosts|))
      ensures if res == Failing then served < |hosts| && AliveFor(old(alive), served + 1)
              else AliveTurns(old(alive), |hosts|, served)
      ensures res == AllAdded ==> answers == Skip(old(answers), |hosts|) && alive == Skip(old(alive), |hosts|)
      ensures !tc.wrapped && old(tc.script) == [] ==> ServedTo(hosts, old(answers), old(alive), old(tc.last), served)
      ensures res != Failing && !tc.wrapped && old(tc.script) == [] ==>
        tc.last == old(tc.last) + DemandUpTo(hosts, old(answers), served)
      ensures res != Failing && !tc.wrapped ==>
        CoveredUpTo(hosts, served, hash, old(answers), tc.kernel, ifaces, old(tc.last), band)
      ensures old(tc.script) == [] ==> tc.script == []
      ensures !tc.wrapped && old(tc.script) == [] ==>
        (res == AllAdded <==> Servable(hosts, old(answers), old(alive), old(tc.last)))
      ensures !tc.wrapped && old(tc.script) == [] && res != AllAdded && ifaces != [] ==>
        (Gained(tc.kernel, ifaces, old(tc.last)) <==> !FailsAtOnce(hosts, old(answers), old(alive), old(tc.last)))
    {
      hide Sofar, Placed, Churned, Grown, Plan, Narrowed, AllFollow, Gained, Demand, Servable, FailsAtOnce, Room,
        Tc.Valid, Tc.Logged;
      hide AliveAt, AliveFor, AliveTurns, CoveredUpTo, DemandUpTo, ServedTo, Answer, Skip, Give, Elements, Distinct;
      res, ledger, asked, served := AllAdded, map[], map[], 0;
      var n := 0;
      ghost var quiet := tc.script == [];
      tc.Bounded();
      SkipNone(hosts, answers, alive);
      if !tc.wrapped {
        SofarNothing(tc.kernel, ifaces, hosts, tc.last, band, hash, answers, alive, quiet);
      }
      while n < |hosts|
        invariant n <= |hosts| && res == AllAdded
        invariant tc.Valid() && tc.Logged() && (old(tc.wrapped) ==> tc.wrapped) && (quiet ==> tc.script == [])
        invariant Counted(old(tc.wrapped), old(tc.last), tc.wrapped, tc.last, 0)
        invariant ledger.Keys == Elements(hosts[..n])
        invariant n == |hosts| ==> AliveTurns(old(alive), |hosts|, n)
        invariant answers == Skip(old(answers), n) && alive == Skip(old(alive), n) && AliveFor(old(alive), n)
        invariant !tc.wrapped ==>
          Sofar(old(tc.kernel), tc.kernel, ifaces, hosts, n, ledger, asked, old(tc.last), tc.last, band,
          hash, old(answers), old(alive), quiet)
      {
        ghost var k, base, before := tc.kernel, tc.last, asked;
        tc.Bounded();
        SkipOne(hosts, old(answers), old(alive), n);
        var list, ips;
        res, list, ips := AddHost(hosts[n], band);
        asked := Give(asked, base, tc.last, hosts[n]);
        tc.Bounded();
        if res != AllAdded {
          if !tc.wrapped {
            SofarStops(old(tc.kernel), k, tc.kernel, ifaces, hosts, n, ledger, before, old(tc.last), base, tc.last,
              band, hash, old(answers), old(alive), quiet);
          }
          return res, map[], asked, n;
        }
        if !tc.wrapped {
          SofarNext(old(tc.kernel), k, tc.kernel, ifaces, hosts, n, ledger, before, old(tc.last), base, tc.last, band,
            hash, old(answers), old(alive), quiet, ips, list);
        }
        ledger, n := ledger[hosts[n] := list], n + 1;
      }
      assert hosts[..n] == hosts;
      served := n;
      if !tc.wrapped {
        SofarDone(old(tc.kernel), tc.kernel, ifaces, hosts, ledger, asked, old(tc.last), tc.last, band, hash,
          old(answers), old(alive), quiet);
      }
    }

    ghost predicate Valid()
      reads this, tc
    {
      && tc.Valid()
      && (!tc.wrapped ==> forall p :: p in owner ==> p <= tc.last)
      && (!tc.wrapped ==> Known(filters, owner))
    }

    // Every host's list names exactly its live filters, and no filter belongs to a host that is not watched.
    ghost predicate Exact()
      reads this, tc
    {
      ExactFor(tc.kernel, ifaces, filters, owner)
    }

    // handleFiltersForHosts: the filters of the hosts of the spec, and the watcher's first ledger. A context that is
    // cancelled on the way is no error, but then nothing is watched.
    method Start(hosts: seq<Host>) returns (ok: bool)
      requires Valid() && tc.Logged() && filters == map[] && owner == map[]
      modifies this, tc
      ensures Valid() && tc.Logged() && (old(tc.wrapped) ==> tc.wrapped)
      ensures !tc.wrapped ==> old(tc.last) <= tc.last && Churned(old(tc.kernel), tc.kernel, {}, old(tc.last), Disrupted)
      ensures !tc.wrapped ==> forall p :: p in owner ==> p > old(tc.last)
      ensures Counted(old(tc.wrapped), old(tc.last), tc.wrapped, tc.last, 1)
      ensures filters.Keys == if ok && AliveFor(old(alive), |hosts|) then Elements(hosts) else {}
      ensures !tc.wrapped && ok && AliveFor(old(alive), |hosts|) && Distinct(hosts) ==>
        Exact() && AllFollow(hosts, |hosts|, hash, old(answers), filters, tc.kernel, ifaces, Disrupted)
      ensures old(tc.script) == [] ==> tc.script == []
      ensures !tc.wrapped && old(tc.script) == [] && AliveFor(old(alive), |hosts|) ==>
        (ok <==> Servable(hosts, old(answers), old(alive), old(tc.last)))
    {
      hide AllFollow, Servable, AliveFor, AliveTurns, CoveredUpTo, Distinct, Follows;
      var res, ledger, asked, served := AddFiltersForHosts(hosts, Disrupted);
      ok := res != Failing;
      owner, filters := asked, ledger;
    }

    // Resolution of one host, and whether its filters no longer match.
    method Probe(h: Host) returns (ips: Option<seq<Ip>>, update: bool)
      requires h in filters
      modifies this`answers
      ensures answers == Skip(old(answers), 1) && Resolved(h, hash, Answer(old(answers), 0), ips)
      ensures update <==> ips.Some? && !SameIps(filters[h], ips.value)
    {
      hide Narrowed;
      update := false;
      ips := Resolve(h);
      if ips.Some? {
        var narrowed := Narrow(h, ips.value);
        ips := Some(narrowed);
        update := NeedsUpdate(filters[h], narrowed);
      }
    }

    // The hosts whose filters no longer match what they resolve to: a host is left alone only when it
    // could not be resolved, or resolves to the IPs of its filters, each returned once.
    method ChangedHosts() returns (changed: seq<Host>, seen: map<Host, Option<seq<Ip>>>)
      requires Valid()
      modifies this`answers
      ensures answers == Coming(old(answers), filters)
      ensures seen.Keys == filters.Keys && Judged(filters, Done(filters, {}), changed, seen, hash, old(answers))
    {
      hide Probing, Judged, Done, SameIps, Resolved, Skip, Coming, Tc.Valid, Tc.Logged, Known;
      changed, seen := [], map[];
      NothingProbed(filters, hash, answers);
      var todo := filters.Keys;
      while todo != {}
        invariant Probing(filters, todo, changed, seen, hash, old(answers), answers)
        decreases todo
      {
        var h :| h in todo;
        ToProbe(filters, todo, changed, seen, hash, old(answers), answers, h);
        ghost var before := answers;
        var ips, update := Probe(h);
        OneProbed(filters, todo, changed, seen, hash, old(answers), before, h, ips);
        if update {
          changed := changed + [h];
        }
        seen, todo := seen[h := ips], todo - {h};
      }
      AllProbed(filters, changed, seen, hash, old(answers), answers);
    }

    // Removal of the filters of the changed hosts.
    method RemoveHosts(changed: seq<Host>)
      requires Valid() && tc.Logged() && (!tc.wrapped ==> tc.turn.Permits(owner.Keys))
      requires Distinct(changed) && Elements(changed) <= filters.Keys
      modifies tc`kernel, tc`script, tc`record
      ensures Valid() && tc.Logged() && OnlyCleared(old(tc.kernel), tc.kernel, PriosOf(filters, changed))
      ensures old(tc.script) == [] ==> tc.script == []
      ensures old(tc.script) == [] && Distinct(ifaces) && old(Exact()) ==>
        forall h :: h in changed ==> Absent(tc.kernel, ifaces, filters[h], |filters[h]|)
    {
      hide OnlyCleared, PriosOf, Absent, Prios, ExactFor, Known, Tc.Valid, Tc.Logged;
      ghost var good := tc.script == [] && Distinct(ifaces) && Exact();
      NothingCleared(tc.kernel, filters, changed);
      for n := 0 to |changed|
        invariant Valid() && tc.Logged() && OnlyCleared(old(tc.kernel), tc.kernel, PriosOf(filters, changed[..n]))
        invariant old(tc.script) == [] ==> tc.script == []
        invariant good ==> forall j :: 0 <= j < n ==>
          changed[j] in filters && Absent(tc.kernel, ifaces, filters[changed[j]], |filters[changed[j]]|)
      {
        var h := changed[n];
        ghost var before := tc.kernel;
        assert h in Elements(changed) && h !in changed[..n];
        if good {
          StillPresent(old(tc.kernel), tc.kernel, ifaces, filters, owner, changed[..n], h);
        }
        if !tc.wrapped {
          PermitsHost(tc.turn, filters, owner, h);
        }
        RemoveList(tc, ifaces, filters[h]);
        PriosOfSnoc(filters, changed, n);
        OnlyClearedMore(old(tc.kernel), before, PriosOf(filters, changed[..n]), PriosOf(filters, changed[..n + 1]));
        OnlyClearedTrans(old(tc.kernel), before, tc.kernel, PriosOf(filters, changed[..n + 1]), Prios(filters[h]));
        forall j | && 0 <= j < n && changed[j] in filters
                   && Absent(before, ifaces, filters[changed[j]], |filters[changed[j]]|)
          ensures Absent(tc.kernel, ifaces, filters[changed[j]], |filters[changed[j]]|)
        {
          AbsentKept(before, tc.kernel, ifaces, filters[changed[j]], Prios(filters[h]));
        }
      }
      assert changed[..|changed|] == changed;
      forall h | h in changed ensures h in filters {
        assert h in Elements(changed);
      }
    }

    // One turn of watchHostChanges. Without tc failures, a turn that starts from an exact ledger ends with one exactly
    // when the changed hosts can all be served again, or nothing is lost and nothing added before the first failure.
    method Tick() returns (outcome: Refresh, changed: seq<Host>, ghost seen: map<Host, Option<seq<Ip>>>)
      requires Valid() && tc.Logged() && (!tc.wrapped ==> tc.turn.Permits(owner.Keys))
      modifies this, tc
      ensures Valid() && tc.Logged() && (old(tc.wrapped) ==> tc.wrapped)
      ensures !tc.wrapped ==>
        && old(tc.last) <= tc.last
        && Churned(old(tc.kernel), tc.kernel, old(owner).Keys, old(tc.last), Disrupted)
        && (forall p :: p in owner ==> p in old(owner) || p > old(tc.last))
        && (forall p :: p in old(owner) ==> p in owner)
      ensures seen.Keys == old(filters.Keys)
      ensures Judged(old(filters), Done(old(filters), {}), changed, seen, hash, old(answers))
      ensures !tc.wrapped && outcome == Refreshed ==>
        AllFollow(changed, |changed|, hash, Coming(old(answers), old(filters)), filters, tc.kernel, ifaces, Disrupted)
      ensures filters.Keys == old(filters.Keys) && (changed == [] ==> unchanged(tc))
      ensures forall h :: h in old(filters) && h !in changed ==> h in filters && filters[h] == old(filters)[h]
      ensures outcome == NotRefreshed ==> filters == old(filters)
      ensures Counted(old(tc.wrapped), old(tc.last), tc.wrapped, tc.last, 1)
      ensures old(tc.script) == [] ==> tc.script == []
      ensures !tc.wrapped && old(tc.script) == [] ==>
        (outcome == NotRefreshed <==> !Servable(changed, Coming(old(answers), old(filters)), old(alive), old(tc.last)))
      ensures !tc.wrapped && old(tc.script) == [] && Distinct(ifaces) && old(Exact()) && outcome != NotRefreshed ==>
        Exact()
      ensures !tc.wrapped && old(tc.script) == [] && Distinct(ifaces) && old(Exact()) && ifaces != [] ==>
        (Exact() <==>
           TickKeeps(old(filters), changed, Coming(old(answers), old(filters)), old(alive), old(tc.last)))
    {
      hide Churned, ExactFor, Known, Judged, Done, AllFollow, Coming, Servable, FailsAtOnce, Skip, Counted, Tc.Valid,
        Tc.Logged, Turn.Permits;
      tc.Bounded();
      CountedNothing(tc.wrapped, tc.last);
      changed, seen := ChangedHosts();
      ChangedAreWatched(filters, changed, seen, hash, old(answers));
      if changed == [] {
        if !tc.wrapped {
          ChurnedNothing(tc.kernel, owner.Keys, tc.last, Disrupted);
        }
        NobodyServed(answers, alive, tc.last);
        outcome := NothingChanged;
        return;
      }
      outcome := RefreshHosts(changed);
    }

    // The filters of the changed hosts are deleted, and then added anew for what the hosts resolve to by now.
    method RefreshHosts(changed: seq<Host>) returns (outcome: Refresh)
      requires Valid() && tc.Logged() && (!tc.wrapped ==> tc.turn.Permits(owner.Keys))
      requires Distinct(changed) && Elements(changed) <= filters.Keys
      modifies this, tc
      ensures Valid() && tc.Logged() && (old(tc.wrapped) ==> tc.wrapped)
      ensures !tc.wrapped ==>
        && old(tc.last) <= tc.last
        && Churned(old(tc.kernel), tc.kernel, old(owner).Keys, old(tc.last), Disrupted)
        && (forall p :: p in owner ==> p in old(owner) || p > old(tc.last))
        && (forall p :: p in old(owner) ==> p in owner)
      ensures outcome != NothingChanged && filters.Keys == old(filters.Keys)
      ensures !tc.wrapped && outcome == Refreshed ==>
        AllFollow(changed, |changed|, hash, old(answers), filters, tc.kernel, ifaces, Disrupted)
      ensures forall h :: h in old(filters) && h !in changed ==> h in filters && filters[h] == old(filters)[h]
      ensures outcome == NotRefreshed ==> filters == old(filters)
      ensures Counted(old(tc.wrapped), old(tc.last), tc.wrapped, tc.last, 1)
      ensures old(tc.script) == [] ==> tc.script == []
      ensures !tc.wrapped && old(tc.script) == [] ==>
        (outcome == NotRefreshed <==> !Servable(changed, old(answers), old(alive), old(tc.last)))
      ensures !tc.wrapped && old(tc.script) == [] && Distinct(ifaces) && old(Exact()) && outcome != NotRefreshed ==>
        Exact()
      ensures !tc.wrapped && old(tc.script) == [] && Distinct(ifaces) && old(Exact()) && ifaces != [] ==>
        (Exact() <==> TickKeeps(old(filters), changed, old(answers), old(alive), old(tc.last)))
    {
      hide Churned, Grown, ExactFor, Absent, OnlyCleared, PriosOf, Known, AllFollow;
      hide Servable, FailsAtOnce, Gained, AliveTurns, AliveFor, CoveredUpTo, DemandUpTo, ServedTo, Skip;
      hide Tc.Valid, Tc.Logged, Turn.Permits, Counted, Lookup, Give;
      ghost var k0, base := tc.kernel, tc.last;
      tc.Bounded();
      RemoveHosts(changed);
      ghost var k1, was := tc.kernel, owner;
      var res, ledger, asked, served := AddFiltersForHosts(changed, Disrupted);
      CountedAtMost(old(tc.wrapped), old(tc.last), tc.wrapped, tc.last);
      owner := owner + asked;
      outcome := if res == AllAdded then Refreshed else NotRefreshed;
      if !tc.wrapped {
        TickChurned(k0, k1, tc.kernel, ifaces, filters, was, changed, ledger, asked, base, tc.last);
        if old(tc.script) == [] && Distinct(ifaces) && old(Exact()) {
          TickExact(k0, k1, tc.kernel, ifaces, filters, was, changed, ledger, asked, base, tc.last);
        }
        if res == AllAdded {
          FollowOthers(changed, hash, old(answers), filters, ledger, tc.kernel, ifaces);
        }
      }
      assert res != AllAdded ==> ledger == map[] && filters + ledger == filters;
      filters := filters + ledger;
    }
  }

  // Whether a turn keeps an exact ledger exact: the changed hosts can be served again, or they had no filter and
  // serving them fails before the first.
  ghost predicate TickKeeps(filters: map<Host, seq<TcFilter>>, changed: seq<Host>, answers: seq<Option<seq<Ip>>>,
                            alive: seq<bool>, last: nat)
  {
    || Servable(changed, answers, alive, last)
    || ((forall h :: h in changed && h in filters ==> filters[h] == []) && FailsAtOnce(changed, answers, alive, last))
  }

  lemma NobodyServed(answers: seq<Option<seq<Ip>>>, alive: seq<bool>, last: nat)
    ensures Servable([], answers, alive, last)
  {
  }

  lemma FollowOthers(hosts: seq<Host>, hash: (string, Ip) -> nat, answers: seq<Option<seq<Ip>>>,
                     filters: map<Host, seq<TcFilter>>, ledger: map<Host, seq<TcFilter>>, k: Kernel,
                     ifaces: seq<Iface>)
    requires AllFollow(hosts, |hosts|, hash, answers, ledger, k, ifaces, Disrupted)
    ensures AllFollow(hosts, |hosts|, hash, answers, filters + ledger, k, ifaces, Disrupted)
  {
    hide Follows;
  }

  // What addFiltersForHosts has done after n hosts.
  ghost predicate Sofar(k0: Kernel, k: Kernel, ifaces: seq<Iface>, hosts: seq<Host>, n: nat,
                        ledger: map<Host, seq<TcFilter>>, asked: map<nat, Host>, base: nat, last: nat, band: Band,
                        hash: (string, Ip) -> nat, answers: seq<Option<seq<Ip>>>, alive: seq<bool>, quiet: bool)
  {
    && n <= |hosts| && Grown(k0, k, ifaces, hosts[..n], ledger, asked, base, last, band)
    && ledger.Keys == Elements(hosts[..n])
    && (Distinct(hosts) ==> AllFollow(hosts, n, hash, answers, ledger, k, ifaces, band))
    && CoveredUpTo(hosts, n, hash, answers, k, ifaces, base, band)
    && (quiet ==> ServedUpTo(hosts, answers, alive, base, last, n) && GainedUpTo(k, ifaces, hosts, answers, base, n))
  }

  lemma SofarNothing(k: Kernel, ifaces: seq<Iface>, hosts: seq<Host>, base: nat, band: Band,
                     hash: (string, Ip) -> nat, answers: seq<Option<seq<Ip>>>, alive: seq<bool>, quiet: bool)
    requires forall i, q: nat :: Lookup(k, i, q).Some? ==> q <= base
    ensures Sofar(k, k, ifaces, hosts, 0, map[], map[], base, base, band, hash, answers, alive, quiet)
  {
    hide Grown, AllFollow, ServedUpTo, GainedUpTo, CoveredUpTo;
    CoveredNone(hosts, hash, answers, k, ifaces, base, band);
    assert hosts[..0] == [];
    GrownStart(k, base, ifaces, band);
    NoneFollow(hosts, hash, answers, k, ifaces, band);
    NoneServed(k, ifaces, hosts, answers, alive, base);
  }

  lemma SofarNext(k0: Kernel, k: Kernel, k': Kernel, ifaces: seq<Iface>, hosts: seq<Host>, n: nat,
                  ledger: map<Host, seq<TcFilter>>, asked: map<nat, Host>, base: nat, last: nat, last': nat,
                  band: Band, hash: (string, Ip) -> nat, answers: seq<Option<seq<Ip>>>, alive: seq<bool>, quiet: bool,
                  ips: seq<Ip>, list: seq<TcFilter>)
    requires Sofar(k0, k, ifaces, hosts, n, ledger, asked, base, last, band, hash, answers, alive, quiet) && n < |hosts|
    requires Placed(k, k', ifaces, last, last', Plan(hosts[n], ips), list, band)
    requires Answer(answers, n).Some? && Narrowed(hosts[n], hash, Answer(answers, n).value, ips)
    requires quiet ==> AliveAt(alive, n) && Room(last, Demand(hosts[n], Answer(answers, n).value))
    requires forall i, q: nat :: Lookup(k, i, q).Some? ==> q <= last
    requires forall i, q: nat :: Lookup(k', i, q).Some? ==> q <= last'
    ensures Sofar(k0, k', ifaces, hosts, n + 1, ledger[hosts[n] := list], Give(asked, last, last', hosts[n]), base,
      last', band, hash, answers, alive, quiet)
  {
    hide Placed, Installed, Noted, Churned, Grown, Plan, Narrowed, AllFollow, ServedUpTo, GainedUpTo, Demand, Room,
      AliveAt, CoveredUpTo;
    assert hosts[..n + 1] == hosts[..n] + [hosts[n]];
    PlacedDone(k, k', ifaces, last, last', Plan(hosts[n], ips), list, band);
    GrownByHost(k0, k, k', ifaces, hosts[..n], ledger, asked, base, last, hosts[n], ips, list, band);
    ElementsSnoc(hosts[..n], hosts[n]);
    GrownOrder(k0, k, ifaces, hosts[..n], ledger, asked, base, last, band);
    CoveredMore(hosts, n, hash, answers, k, k', ifaces, base, last, ips, band);
    FollowsNow(hosts[n], hash, Answer(answers, n), ips, list, k, k', ifaces, last, band);
    if Distinct(hosts) {
      AllFollowMore(hosts, n, hash, answers, ledger, list, k, k', ifaces, last, band);
    }
    if quiet {
      NarrowedSize(hosts[n], hash, Answer(answers, n).value, ips);
      OneServed(k, k', ifaces, hosts, answers, alive, base, last, n, ips, list, band);
    }
  }

  lemma SofarStops(k0: Kernel, k: Kernel, k': Kernel, ifaces: seq<Iface>, hosts: seq<Host>, n: nat,
                   ledger: map<Host, seq<TcFilter>>, asked: map<nat, Host>, base: nat, last: nat, last': nat,
                   band: Band, hash: (string, Ip) -> nat, answers: seq<Option<seq<Ip>>>, alive: seq<bool>, quiet: bool)
    requires Sofar(k0, k, ifaces, hosts, n, ledger, asked, base, last, band, hash, answers, alive, quiet) && n < |hosts|
    requires Churned(k, k', {}, last, band) && last <= last'
    requires forall i, q: nat :: Lookup(k, i, q).Some? ==> q <= last
    requires forall i, q: nat :: Lookup(k', i, q).Some? ==> q <= last'
    requires quiet ==>
      !(AliveAt(alive, n) && Answer(answers, n).Some? && Room(last, Demand(hosts[n], Answer(answers, n).value)))
    requires quiet && ifaces != [] ==>
      (Gained(k', ifaces, last) <==> AliveAt(alive, n) && Answer(answers, n).Some? && Room(last, 1))
    ensures Grown(k0, k', ifaces, hosts, map[], Give(asked, last, last', hosts[n]), base, last', band)
    ensures k' == k ==> CoveredUpTo(hosts, n, hash, answers, k', ifaces, base, band)
    ensures quiet ==>
      ServedTo(hosts, answers, alive, base, n) && (last' == last ==> last' == base + DemandUpTo(hosts, answers, n))
    ensures quiet ==> !Servable(hosts, answers, alive, base)
    ensures quiet && ifaces != [] ==> (Gained(k', ifaces, base) <==> !FailsAtOnce(hosts, answers, alive, base))
  {
    hide Churned, Grown, AllFollow, GainedUpTo, Gained, Demand, Room, AliveAt, Servable, FailsAtOnce, CoveredUpTo,
      TurnServed;
    GrownInVain(k0, k, k', ifaces, hosts[..n], ledger, asked, base, last, last', hosts[n], hosts, band);
    if quiet {
      ServingStops(k, k', ifaces, hosts, answers, alive, base, last, n, band);
    }
  }

  lemma SofarDone(k0: Kernel, k: Kernel, ifaces: seq<Iface>, hosts: seq<Host>, ledger: map<Host, seq<TcFilter>>,
                  asked: map<nat, Host>, base: nat, last: nat, band: Band, hash: (string, Ip) -> nat,
                  answers: seq<Option<seq<Ip>>>, alive: seq<bool>, quiet: bool)
    requires Sofar(k0, k, ifaces, hosts, |hosts|, ledger, asked, base, last, band, hash, answers, alive, quiet)
    ensures Grown(k0, k, ifaces, hosts, ledger, asked, base, last, band)
    ensures Distinct(hosts) ==> AllFollow(hosts, |hosts|, hash, answers, ledger, k, ifaces, band)
    ensures CoveredUpTo(hosts, |hosts|, hash, answers, k, ifaces, base, band)
    ensures quiet ==> Servable(hosts, answers, alive, base) && ServedTo(hosts, answers, alive, base, |hosts|)
    ensures quiet ==> last == base + DemandUpTo(hosts, answers, |hosts|)
  {
    hide Grown, AllFollow, CoveredUpTo;
    assert hosts[..|hosts|] == hosts;
  }

  lemma SkipNone(hosts: seq<Host>, answers: seq<Option<seq<Ip>>>, alive: seq<bool>)
    ensures Skip(answers, 0) == answers && Skip(alive, 0) == alive && AliveFor(alive, 0) && Elements(hosts[..0]) == {}
    ensures hosts == [] ==> AliveTurns(alive, 0, 0)
  {
  }

  lemma SkipOne(hosts: seq<Host>, answers: seq<Option<seq<Ip>>>, alive: seq<bool>, n: nat)
    requires n < |hosts| && AliveFor(alive, n)
    ensures Skip(Skip(answers, n), 1) == Skip(answers, n + 1) && Skip(Skip(alive, n), 1) == Skip(alive, n + 1)
    ensures Answer(Skip(answers, n), 0) == Answer(answers, n) && (AliveAt(Skip(alive, n), 0) <==> AliveAt(alive, n))
    ensures AliveAt(alive, n) ==> AliveFor(alive, n + 1) && (n + 1 == |hosts| ==> AliveTurns(alive, |hosts|, n + 1))
    ensures !AliveAt(alive, n) ==> !AliveFor(alive, |hosts|) && AliveTurns(alive, |hosts|, n)
    ensures Elements(hosts[..n + 1]) == Elements(hosts[..n]) + {hosts[n]}
  {
    assert hosts[..n + 1] == hosts[..n] + [hosts[n]];
    ElementsSnoc(hosts[..n], hosts[n]);
  }

  predicate AliveFor(alive: seq<bool>, n: nat) {
    forall m :: 0 <= m < n ==> AliveAt(alive, m)
  }

  // Of n turns, the context is alive in the first m and no longer.
  predicate AliveTurns(alive: seq<bool>, n: nat, m: nat) {
    m <= n && AliveFor(alive, m) && (m == n || !AliveAt(alive, m))
  }

  lemma GrownOrder(k0: Kernel, k: Kernel, ifaces: seq<Iface>, hosts: seq<Host>, ledger: map<Host, seq<TcFilter>>,
                   asked: map<nat, Host>, base: nat, last: nat, band: Band)
    requires Grown(k0, k, ifaces, hosts, ledger, asked, base, last, band)
    ensures base <= last
  {
  }

  lemma NoneFollow(hosts: seq<Host>, hash: (string, Ip) -> nat, answers: seq<Option<seq<Ip>>>, k: Kernel,
                   ifaces: seq<Iface>, band: Band)
    ensures AllFollow(hosts, 0, hash, answers, map[], k, ifaces, band)
  {
  }

  lemma NarrowedSize(h: Host, hash: (string, Ip) -> nat, all: seq<Ip>, ips: seq<Ip>)
    requires Narrowed(h, hash, all, ips)
    ensures |ips| == NarrowedCount(h, |all|)
  {
  }

  lemma NothingCleared(k: Kernel, filters: map<Host, seq<TcFilter>>, changed: seq<Host>)
    ensures OnlyCleared(k, k, PriosOf(filters, changed[..0]))
  {
  }

  lemma PriosOfSnoc(filters: map<Host, seq<TcFilter>>, changed: seq<Host>, n: nat)
    requires n < |changed| && changed[n] in filters
    ensures Prios(filters[changed[n]]) <= PriosOf(filters, changed[..n + 1])
    ensures PriosOf(filters, changed[..n]) <= PriosOf(filters, changed[..n + 1])
  {
    assert changed[..n + 1] == changed[..n] + [changed[n]];
  }

  lemma OnlyClearedMore(k: Kernel, k': Kernel, ps: set<nat>, qs: set<nat>)
    requires OnlyCleared(k, k', ps) && ps <= qs
    ensures OnlyCleared(k, k', qs)
  {
  }

  lemma AbsentKept(k: Kernel, k': Kernel, ifaces: seq<Iface>, list: seq<TcFilter>, ps: set<nat>)
    requires Absent(k, ifaces, list, |list|) && OnlyCleared(k, k', ps)
    ensures Absent(k', ifaces, list, |list|)
  {
  }

  // The answers left once every watched host was asked about.
  ghost function Coming(answers: seq<Option<seq<Ip>>>, filters: map<Host, seq<TcFilter>>): seq<Option<seq<Ip>>> {
    Skip(answers, Done(filters, {}))
  }

  // What the resolver said about a host, narrowed.
  ghost predicate Resolved(h: Host, hash: (string, Ip) -> nat, answer: Option<seq<Ip>>, ips: Option<seq<Ip>>) {
    (answer.None? <==> ips.None?) && (answer.Some? ==> Narrowed(h, hash, answer.value, ips.value))
  }

  ghost predicate ResolvedFrom(h: Host, hash: (string, Ip) -> nat, answers: seq<Option<seq<Ip>>>, n: nat,
                               ips: Option<seq<Ip>>)
  {
    exists j :: 0 <= j < n && Resolved(h, hash, Answer(answers, j), ips)
  }

  // Of the hosts asked about, each answered by one of the first n answers, the changed ones are those that were
  // resolved to something else than the IPs of their filters.
  ghost predicate Judged(filters: map<Host, seq<TcFilter>>, n: nat, changed: seq<Host>,
                         seen: map<Host, Option<seq<Ip>>>, hash: (string, Ip) -> nat, answers: seq<Option<seq<Ip>>>)
  {
    && Distinct(changed) && seen.Keys <= filters.Keys
    && (forall h :: h in changed <==> h in seen && seen[h].Some? && !SameIps(filters[h], seen[h].value))
    && (forall h :: h in seen ==> ResolvedFrom(h, hash, answers, n, seen[h]))
  }

  lemma JudgedMore(filters: map<Host, seq<TcFilter>>, n: nat, changed: seq<Host>, seen: map<Host, Option<seq<Ip>>>,
                   hash: (string, Ip) -> nat, answers: seq<Option<seq<Ip>>>, h: Host, ips: Option<seq<Ip>>)
    requires Judged(filters, n, changed, seen, hash, answers) && h in filters && h !in seen
    requires ResolvedFrom(h, hash, answers, n + 1, ips)
    ensures Judged(filters, n + 1, if ips.Some? && !SameIps(filters[h], ips.value) then changed + [h] else changed,
      seen[h := ips], hash, answers)
  {
    hide SameIps, ResolvedFrom;
    assert h !in changed;
    forall g | g in seen ensures ResolvedFrom(g, hash, answers, n + 1, seen[g]) {
      ResolvedMore(g, hash, answers, n, seen[g]);
    }
  }

  // How many hosts were asked about.
  ghost function Done(filters: map<Host, seq<TcFilter>>, todo: set<Host>): nat {
    |filters.Keys - todo|
  }

  ghost predicate Probing(filters: map<Host, seq<TcFilter>>, todo: set<Host>, changed: seq<Host>,
                          seen: map<Host, Option<seq<Ip>>>, hash: (string, Ip) -> nat, answers: seq<Option<seq<Ip>>>,
                          coming: seq<Option<seq<Ip>>>)
  {
    && todo <= filters.Keys && seen.Keys == filters.Keys - todo
    && Judged(filters, Done(filters, todo), changed, seen, hash, answers)
    && coming == Skip(answers, Done(filters, todo))
  }

  lemma NothingProbed(filters: map<Host, seq<TcFilter>>, hash: (string, Ip) -> nat, answers: seq<Option<seq<Ip>>>)
    ensures Probing(filters, filters.Keys, [], map[], hash, answers, answers)
  {
    assert filters.Keys - filters.Keys == {};
  }

  lemma ToProbe(filters: map<Host, seq<TcFilter>>, todo: set<Host>, changed: seq<Host>,
                seen: map<Host, Option<seq<Ip>>>, hash: (string, Ip) -> nat, answers: seq<Option<seq<Ip>>>,
                coming: seq<Option<seq<Ip>>>, h: Host)
    requires Probing(filters, todo, changed, seen, hash, answers, coming) && h in todo
    ensures h in filters && h !in seen
  {
    OneLess(filters.Keys, todo, h);
  }

  lemma OneMoreDone(filters: map<Host, seq<TcFilter>>, todo: set<Host>, seen: map<Host, Option<seq<Ip>>>, h: Host,
                    ips: Option<seq<Ip>>)
    requires todo <= filters.Keys && h in todo && seen.Keys == filters.Keys - todo
    ensures Done(filters, todo - {h}) == Done(filters, todo) + 1 && seen[h := ips].Keys == filters.Keys - (todo - {h})
    ensures todo - {h} <= filters.Keys
  {
    OneLess(filters.Keys, todo, h);
    KeysAfter(seen, h, ips);
  }

  lemma OneProbed(filters: map<Host, seq<TcFilter>>, todo: set<Host>, changed: seq<Host>,
                  seen: map<Host, Option<seq<Ip>>>, hash: (string, Ip) -> nat, answers: seq<Option<seq<Ip>>>,
                  coming: seq<Option<seq<Ip>>>, h: Host, ips: Option<seq<Ip>>)
    requires Probing(filters, todo, changed, seen, hash, answers, coming) && h in todo && h in filters && h !in seen
    requires Resolved(h, hash, Answer(coming, 0), ips)
    ensures Probing(filters, todo - {h},
      if ips.Some? && !SameIps(filters[h], ips.value) then changed + [h] else changed,
      seen[h := ips], hash, answers, Skip(coming, 1))
  {
    hide SameIps, Resolved, ResolvedFrom, Judged, Skip, Done;
    OneMoreDone(filters, todo, seen, h, ips);
    ResolvedNext(h, hash, answers, Done(filters, todo), ips);
    JudgedMore(filters, Done(filters, todo), changed, seen, hash, answers, h, ips);
  }

  lemma ResolvedMore(h: Host, hash: (string, Ip) -> nat, answers: seq<Option<seq<Ip>>>, n: nat, ips: Option<seq<Ip>>)
    requires ResolvedFrom(h, hash, answers, n, ips)
    ensures ResolvedFrom(h, hash, answers, n + 1, ips)
  {
    hide Resolved, Answer;
  }

  lemma ResolvedNext(h: Host, hash: (string, Ip) -> nat, answers: seq<Option<seq<Ip>>>, n: nat, ips: Option<seq<Ip>>)
    requires Resolved(h, hash, Answer(Skip(answers, n), 0), ips)
    ensures ResolvedFrom(h, hash, answers, n + 1, ips) && Skip(Skip(answers, n), 1) == Skip(answers, n + 1)
  {
    hide Resolved;
    assert Answer(Skip(answers, n), 0) == Answer(answers, n);
  }

  lemma AllProbed(filters: map<Host, seq<TcFilter>>, changed: seq<Host>, seen: map<Host, Option<seq<Ip>>>,
                  hash: (string, Ip) -> nat, answers: seq<Option<seq<Ip>>>, coming: seq<Option<seq<Ip>>>)
    requires Probing(filters, {}, changed, seen, hash, answers, coming)
    ensures seen.Keys == filters.Keys && Judged(filters, Done(filters, {}), changed, seen, hash, answers)
    ensures coming == Coming(answers, filters)
  {
    assert filters.Keys - {} == filters.Keys;
  }

  lemma ChangedAreWatched(filters: map<Host, seq<TcFilter>>, changed: seq<Host>, seen: map<Host, Option<seq<Ip>>>,
                          hash: (string, Ip) -> nat, answers: seq<Option<seq<Ip>>>)
    requires Judged(filters, Done(filters, {}), changed, seen, hash, answers)
    ensures Distinct(changed) && Elements(changed) <= filters.Keys
    ensures forall h :: h in changed ==> h in filters
  {
  }

  datatype Refresh = NothingChanged | Refreshed | NotRefreshed

  lemma TickChurned(k0: Kernel, k1: Kernel, k2: Kernel, ifaces: seq<Iface>, filters: map<Host, seq<TcFilter>>,
                    owner: map<nat, Host>, changed: seq<Host>, ledger: map<Host, seq<TcFilter>>,
                    asked: map<nat, Host>, base: nat, last: nat)
    requires forall i, q: nat :: Lookup(k0, i, q).Some? ==> q <= base
    requires OnlyCleared(k0, k1, PriosOf(filters, changed)) && Known(filters, owner)
    requires Grown(k1, k2, ifaces, changed, ledger, asked, base, last, Disrupted)
    ensures base <= last && Churned(k0, k2, owner.Keys, base, Disrupted)
    ensures forall p :: p in asked ==> base < p <= last
    ensures Known(filters + ledger, owner + asked)
  {
  }

  // A host that was not changed keeps its live filters.
  lemma UnchangedHostLive(k0: Kernel, k1: Kernel, k2: Kernel, ifaces: seq<Iface>, filters: map<Host, seq<TcFilter>>,
                          owner: map<nat, Host>, changed: seq<Host>, asked: map<nat, Host>, base: nat, h: Host)
    requires AllLive(k0, ifaces, filters, owner, Disrupted) && forall p :: p in owner ==> p <= base
    requires OnlyCleared(k0, k1, PriosOf(filters, changed)) && Churned(k1, k2, {}, base, Disrupted)
    requires forall p :: p in asked ==> p > base && asked[p] in changed
    requires h in filters && h !in changed
    ensures HostLive(k2, ifaces, h, filters[h], owner + asked, Disrupted)
  {
    hide Fits;
    forall p | p in owner && owner[p] == h ensures p !in PriosOf(filters, changed) {
      assert forall g, f :: g in changed && g in filters && f in filters[g] ==> owner[f.priority] == g;
    }
    HostLiveFrame(k0, k2, ifaces, h, filters[h], owner, owner + asked, Disrupted);
  }

  // Nothing is left of what a changed host had before the turn.
  lemma ChangedHostCleared(k0: Kernel, k1: Kernel, k2: Kernel, ifaces: seq<Iface>, filters: map<Host, seq<TcFilter>>,
                           owner: map<nat, Host>, changed: seq<Host>, base: nat, h: Host)
    requires AllLive(k0, ifaces, filters, owner, Disrupted) && forall p :: p in owner ==> p <= base
    requires OnlyCleared(k0, k1, PriosOf(filters, changed)) && Churned(k1, k2, {}, base, Disrupted)
    requires h in filters && Absent(k1, ifaces, filters[h], |filters[h]|)
    ensures forall p, i :: p in owner && owner[p] == h && i in ifaces ==> Lookup(k2, i, p).None?
  {
    hide Fits;
    forall p, i | p in owner && owner[p] == h && i in ifaces ensures Lookup(k2, i, p).None? {
      assert HostLive(k0, ifaces, h, filters[h], owner, Disrupted);
      if Lookup(k0, i, p).Some? {
        assert p in Prios(filters[h]);
        var j :| 0 <= j < |filters[h]| && filters[h][j].priority == p;
      }
    }
  }

  lemma ChangedHostLive(k: Kernel, ifaces: seq<Iface>, list: seq<TcFilter>, owner: map<nat, Host>,
                        asked: map<nat, Host>, h: Host)
    requires HostLive(k, ifaces, h, list, asked, Disrupted)
    requires forall p, i :: p in owner && owner[p] == h && i in ifaces ==> Lookup(k, i, p).None?
    ensures HostLive(k, ifaces, h, list, owner + asked, Disrupted)
  {
    hide Fits;
  }

  lemma TickExact(k0: Kernel, k1: Kernel, k2: Kernel, ifaces: seq<Iface>, filters: map<Host, seq<TcFilter>>,
                  owner: map<nat, Host>, changed: seq<Host>, ledger: map<Host, seq<TcFilter>>, asked: map<nat, Host>,
                  base: nat, last: nat)
    requires ExactFor(k0, ifaces, filters, owner) && Known(filters, owner) && forall p :: p in owner ==> p <= base
    requires OnlyCleared(k0, k1, PriosOf(filters, changed)) && Distinct(changed)
    requires forall h :: h in changed ==> h in filters && Absent(k1, ifaces, filters[h], |filters[h]|)
    requires Grown(k1, k2, ifaces, changed, ledger, asked, base, last, Disrupted)
    ensures ledger.Keys == Elements(changed) ==> ExactFor(k2, ifaces, filters + ledger, owner + asked)
    ensures ledger == map[] && ifaces != [] ==>
      (ExactFor(k2, ifaces, filters, owner + asked) <==>
         (forall h :: h in changed && h in filters ==> filters[h] == []) && !Gained(k2, ifaces, base))
  {
    hide HostLive, Churned, PriosOf, Absent, OnlyCleared, Gained;
    var all := owner + asked;
    forall h | h in filters && h !in changed ensures HostLive(k2, ifaces, h, filters[h], all, Disrupted) {
      UnchangedHostLive(k0, k1, k2, ifaces, filters, owner, changed, asked, base, h);
    }
    forall h | h in changed
      ensures forall p, i :: p in owner && owner[p] == h && i in ifaces ==> Lookup(k2, i, p).None?
    {
      ChangedHostCleared(k0, k1, k2, ifaces, filters, owner, changed, base, h);
    }
    if ledger.Keys == Elements(changed) {
      forall h | h in filters + ledger ensures HostLive(k2, ifaces, h, (filters + ledger)[h], all, Disrupted) {
        if h in ledger {
          ChangedHostLive(k2, ifaces, ledger[h], owner, asked, h);
        }
      }
    }
    if ledger == map[] && ifaces != [] {
      assert forall h :: h in changed ==> h in filters;
      NotServed(k2, ifaces, filters, owner, asked, changed, base);
    }
  }

  // When the changed hosts were cleared but their lists kept.
  lemma NotServed(k2: Kernel, ifaces: seq<Iface>, filters: map<Host, seq<TcFilter>>, owner: map<nat, Host>,
                  asked: map<nat, Host>, changed: seq<Host>, base: nat)
    requires ifaces != [] && (forall p :: p in owner ==> p <= base && owner[p] in filters)
    requires forall p :: p in asked ==> p > base && asked[p] in changed
    requires forall i, q: nat :: q > base && Lookup(k2, i, q).Some? ==> q in asked
    requires Known(filters, owner) && forall h :: h in changed ==> h in filters
    requires forall h, p, i :: h in changed && p in owner && owner[p] == h && i in ifaces ==> Lookup(k2, i, p).None?
    requires forall h :: h in filters && h !in changed ==> HostLive(k2, ifaces, h, filters[h], owner + asked, Disrupted)
    ensures ExactFor(k2, ifaces, filters, owner + asked) <==>
      (forall h :: h in changed && h in filters ==> filters[h] == []) && !Gained(k2, ifaces, base)
  {
    hide HostLive, Known;
    if ExactFor(k2, ifaces, filters, owner + asked) {
      ExactIsUntouched(k2, ifaces, filters, owner, asked, changed, base);
    }
    if (forall h :: h in changed && h in filters ==> filters[h] == []) && !Gained(k2, ifaces, base) {
      forall h | h in changed ensures HostLive(k2, ifaces, h, filters[h], owner + asked, Disrupted) {
        NoFilterLive(k2, ifaces, h, owner + asked);
      }
    }
  }

  lemma ExactIsUntouched(k2: Kernel, ifaces: seq<Iface>, filters: map<Host, seq<TcFilter>>, owner: map<nat, Host>,
                         asked: map<nat, Host>, changed: seq<Host>, base: nat)
    requires ifaces != [] && (forall p :: p in owner ==> p <= base)
    requires forall p :: p in asked ==> p > base && asked[p] in changed
    requires forall i, q: nat :: q > base && Lookup(k2, i, q).Some? ==> q in asked
    requires Known(filters, owner) && forall h :: h in changed ==> h in filters
    requires forall h, p, i :: h in changed && p in owner && owner[p] == h && i in ifaces ==> Lookup(k2, i, p).None?
    requires ExactFor(k2, ifaces, filters, owner + asked)
    ensures (forall h :: h in changed && h in filters ==> filters[h] == []) && !Gained(k2, ifaces, base)
  {
    hide Fits;
    var all := owner + asked;
    forall h | h in changed ensures filters[h] == [] {
      assert HostLive(k2, ifaces, h, filters[h], all, Disrupted);
      assert ifaces[0] in ifaces;
      EmptyWithoutElements(filters[h]);
    }
    forall p, i | p in all && p > base && i in ifaces ensures Lookup(k2, i, p).None? {
      assert HostLive(k2, ifaces, all[p], filters[all[p]], all, Disrupted);
    }
  }

  // A host without filters, in the ledger or in the kernel.
  lemma NoFilterLive(k: Kernel, ifaces: seq<Iface>, h: Host, owner: map<nat, Host>)
    requires forall p, i :: p in owner && owner[p] == h && i in ifaces ==> Lookup(k, i, p).None?
    ensures HostLive(k, ifaces, h, [], owner, Disrupted)
  {
    hide Fits;
  }

  ghost predicate SameIps(current: seq<TcFilter>, ips: seq<Ip>) {
    Ips(current) == Elements(ips) && Distinct(ips)
  }

  ghost function PriosOf(filters: map<Host, seq<TcFilter>>, hosts: seq<Host>): set<nat> {
    set h, f | h in hosts && h in filters && f in filters[h] :: f.priority
  }

  // Clearing the filters of other hosts leaves those of h there.
  lemma StillPresent(k: Kernel, k': Kernel, ifaces: seq<Iface>, filters: map<Host, seq<TcFilter>>,
                     owner: map<nat, Host>, others: seq<Host>, h: Host)
    requires ExactFor(k, ifaces, filters, owner) && h in filters && h !in others
    requires OnlyCleared(k, k', PriosOf(filters, others))
    ensures Present(k', ifaces, filters[h], 0) && Increasing(filters[h])
  {
    assert HostLive(k, ifaces, h, filters[h], owner, Disrupted);
    forall j, i | 0 <= j < |filters[h]| && i in ifaces ensures Lookup(k', i, filters[h][j].priority).Some? {
      var f := filters[h][j];
      assert f in filters[h] && owner[f.priority] == h;
      assert f.priority !in PriosOf(filters, others);
    }
  }

  // Whether every filter of the list is there on every interface, from the n-th on; or none, before it.
  ghost predicate Present(k: Kernel, ifaces: seq<Iface>, list: seq<TcFilter>, n: nat) {
    forall j, i :: n <= j < |list| && i in ifaces ==> Lookup(k, i, list[j].priority).Some?
  }

  ghost predicate Absent(k: Kernel, ifaces: seq<Iface>, list: seq<TcFilter>, n: nat) {
    forall j, i :: 0 <= j < n && j < |list| && i in ifaces ==> Lookup(k, i, list[j].priority).None?
  }

  lemma PermitsHost(turn: Turn, filters: map<Host, seq<TcFilter>>, owner: map<nat, Host>, h: Host)
    requires turn.Permits(owner.Keys) && Known(filters, owner) && h in filters
    ensures turn.Permits(Prios(filters[h]))
  {
  }

  // Deletion of one host's filters: failures are only logged.
  method RemoveList(tc: Tc, ifaces: seq<Iface>, list: seq<TcFilter>)
    requires tc.Valid() && tc.Logged() && (!tc.wrapped ==> tc.turn.Permits(Prios(list)))
    modifies tc`kernel, tc`script, tc`record
    ensures tc.Valid() && tc.Logged() && OnlyCleared(old(tc.kernel), tc.kernel, Prios(list))
    ensures old(tc.script) == [] ==> tc.script == []
    ensures old(tc.script) == [] && Distinct(ifaces) && Increasing(list) && Present(old(tc.kernel), ifaces, list, 0) ==>
      Absent(tc.kernel, ifaces, list, |list|)
  {
    ghost var good := tc.script == [] && Distinct(ifaces) && Increasing(list) && Present(tc.kernel, ifaces, list, 0);
    for n := 0 to |list|
      invariant tc.Valid() && tc.Logged() && OnlyCleared(old(tc.kernel), tc.kernel, Prios(list))
      invariant old(tc.script) == [] ==> tc.script == []
      invariant good ==> Absent(tc.kernel, ifaces, list, n) && Present(tc.kernel, ifaces, list, n)
    {
      assert list[n] in list && {list[n].priority} <= Prios(list);
      ghost var before := tc.kernel;
      var ok := tc.RemoveFilter(ifaces, list[n].priority);
      OnlyClearedTrans(old(tc.kernel), before, tc.kernel, Prios(list), {list[n].priority});
    }
  }

  /* ---------- a refresh that fails ---------- */

  lemma OneServable(h: Host, ip: Ip, alive: seq<bool>)
    requires h.percentage.None? && alive == []
    ensures Servable([h], [Some([ip])], alive, FIRST_PRIORITY) && AliveFor(alive, 1)
  {
    hide AllProtocols;
    FewProtocols(h);
    var answers := [Some([ip])];
    assert DemandUpTo([h], answers, 0) == 0;
    assert TurnServed([h], answers, alive, FIRST_PRIORITY, 0);
  }

  lemma FewProtocols(h: Host)
    ensures 1 <= |AllProtocols(h.protocol)| <= 2
  {
  }

  lemma OneFollows(h: Host, hash: (string, Ip) -> nat, ip: Ip, filters: map<Host, seq<TcFilter>>, k: Kernel,
                   ifaces: seq<Iface>)
    requires h.percentage.None? && AllFollow([h], 1, hash, [Some([ip])], filters, k, ifaces, Disrupted)
    ensures h in filters && Ips(filters[h]) == {ip} && filters[h] != []
  {
    hide Covers;
    assert [h][0] == h && Follows(h, hash, Some([ip]), filters[h], k, ifaces, Disrupted);
    assert Elements([ip]) == {ip};
  }

  lemma OneChanged(filters: map<Host, seq<TcFilter>>, h: Host, ip: Ip, other: Ip, changed: seq<Host>,
                   seen: map<Host, Option<seq<Ip>>>, hash: (string, Ip) -> nat, answers: seq<Option<seq<Ip>>>)
    requires filters.Keys == {h} && Ips(filters[h]) == {ip} && ip != other && h.percentage.None?
    requires answers == [Some([other]), None] && seen.Keys == filters.Keys
    requires Judged(filters, Done(filters, {}), changed, seen, hash, answers)
    ensures h in changed && Coming(answers, filters) == [None]
  {
    assert filters.Keys - {} == {h};
    assert ResolvedFrom(h, hash, answers, 1, seen[h]);
    assert seen[h] == Some([other]) && other in Elements([other]);
  }

  lemma NotServable(h: Host, changed: seq<Host>, alive: seq<bool>, last: nat)
    requires h in changed
    ensures !Servable(changed, [None], alive, last)
  {
    assert changed != [] && !TurnServed(changed, [None], alive, last, 0);
  }

  // A concrete such turn: the host resolves to another IP, its filters are deleted, and then the resolver fails.
  method RefreshFails(h: Host, ip: Ip, other: Ip, iface: Iface) returns (w: HostWatcher)
    requires h.percentage.None? && ip != other
    ensures fresh(w) && fresh(w.tc) && w.Valid() && w.tc.script == [] && !w.tc.wrapped
    ensures w.filters.Keys == {h} && w.filters[h] != [] && !w.Exact()
  {
    hide Servable, AliveFor, AllFollow, Judged, Coming, Done, ExactFor, Known, Churned, Tc.Valid, Tc.Logged;
    var tc := new Tc();
    tc.Unlogged();
    w := new HostWatcher(tc, [iface], (_, _) => 0);
    w.answers := [Some([ip])];
    OneServable(h, ip, w.alive);
    NothingOwned(w.filters, w.owner);
    var ok := w.Start([h]);
    OneFollows(h, w.hash, ip, w.filters, tc.kernel, [iface]);
    assert Elements([h]) == {h};
    w.answers := [Some([other]), None];
    ghost var before, alive, last := w.filters, w.alive, tc.last;
    var outcome, changed, seen := w.Tick();
    OneChanged(before, h, ip, other, changed, seen, w.hash, [Some([other]), None]);
    NotServable(h, changed, alive, last);
  }

  lemma NothingOwned(filters: map<Host, seq<TcFilter>>, owner: map<nat, Host>)
    requires filters == map[]
    ensures Known(filters, owner)
  {
  }
}
