// tc filters on the root qdisc (network/tc.go): the priority allocator, and the commands that add and
// delete filters, over the filter tables kept by the kernel. A command may fail at any point; which ones
// do is read off a script that is left arbitrary.
module TrafficControl {
  import opened DisruptionTypes

  type Iface = string
  type Ip = string

  datatype Protocol = TCP | UDP | ARP

  datatype Match = Match(
    src: Option<Ip>, dst: Option<Ip>, srcPort: int, dstPort: int, protocol: Protocol, connState: string)

  // flowid 1:1, where nothing is disrupted, or 1:4, where everything is.
  datatype Band = Spared | Disrupted

  datatype Filter = Filter(m: Match, band: Band)

  type Kernel = map<Iface, map<nat, Filter>>

  const FIRST_PRIORITY := 1000
  const MAX_FILTERS := 2048
  const PRIORITY_LIMIT := FIRST_PRIORITY + MAX_FILTERS
  const UINT32 := 0x1_0000_0000

  function Lookup(k: Kernel, i: Iface, p: nat): Option<Filter> {
    if i in k && p in k[i] then Some(k[i][p]) else None
  }

  function Put(k: Kernel, i: Iface, p: nat, f: Filter): Kernel {
    k[i := (if i in k then k[i] else map[])[p := f]]
  }

  function Drop(k: Kernel, i: Iface, p: nat): Kernel {
    if i in k then k[i := k[i] - {p}] else k
  }

  lemma PutLookup(k: Kernel, i: Iface, p: nat, f: Filter)
    ensures forall j, q: nat :: Lookup(Put(k, i, p, f), j, q) == if j == i && q == p then Some(f) else Lookup(k, j, q)
  {
  }

  lemma DropLookup(k: Kernel, i: Iface, p: nat)
    ensures forall j, q: nat :: Lookup(Drop(k, i, p), j, q) == if j == i && q == p then None else Lookup(k, j, q)
  {
  }

  // The counter has not moved by more than n past the limit, and so has not overflowed.
  predicate Counted(wrapped: bool, last: nat, wrapped': bool, last': nat, n: nat) {
    !wrapped && Max(PRIORITY_LIMIT, last) + n + 1 < UINT32 ==> !wrapped' && last' <= Max(PRIORITY_LIMIT, last) + n
  }

  lemma CountedTrans(wrapped: bool, last: nat, wrapped1: bool, last1: nat, wrapped2: bool, last2: nat, m: nat, n: nat)
    requires Counted(wrapped, last, wrapped1, last1, m) && Counted(wrapped1, last1, wrapped2, last2, n)
    ensures Counted(wrapped, last, wrapped2, last2, m + n)
  {
  }

  lemma CountedNothing(wrapped: bool, last: nat)
    ensures Counted(wrapped, last, wrapped, last, 0) && Counted(wrapped, last, wrapped, last, 1)
  {
  }

  lemma CountedAtMost(wrapped: bool, last: nat, wrapped': bool, last': nat)
    requires Counted(wrapped, last, wrapped', last', 0) || Counted(wrapped, last, wrapped', last', 1)
    ensures Counted(wrapped, last, wrapped', last', 1)
  {
  }

  // k' is k with filter f at priority p on the given interfaces.
  ghost predicate Added(k: Kernel, k': Kernel, ifaces: seq<Iface>, p: nat, f: Filter) {
    forall i, q: nat :: Lookup(k', i, q) == if q == p && i in ifaces then Some(f) else Lookup(k, i, q)
  }

  // k' is k with priority p cleared on the given interfaces.
  ghost predicate Removed(k: Kernel, k': Kernel, ifaces: seq<Iface>, p: nat) {
    forall i, q: nat :: Lookup(k', i, q) == if q == p && i in ifaces then None else Lookup(k, i, q)
  }

  lemma ChurnedNothing(k: Kernel, mine: set<nat>, base: nat, band: Band)
    requires forall i, q: nat :: Lookup(k, i, q).Some? ==> q <= base
    ensures Churned(k, k, mine, base, band)
  {
  }

  lemma ChurnedMore(k: Kernel, k1: Kernel, k2: Kernel, base: nat, base1: nat, band: Band)
    requires Churned(k, k1, {}, base, band) && Churned(k1, k2, {}, base1, band) && base <= base1
    ensures Churned(k, k2, {}, base, band)
  {
  }

  // At most the given priorities were cleared.
  ghost predicate OnlyCleared(k: Kernel, k': Kernel, ps: set<nat>) {
    forall i, q: nat :: Lookup(k', i, q) == Lookup(k, i, q) || (q in ps && Lookup(k', i, q).None?)
  }

  lemma OnlyClearedTrans(k: Kernel, k1: Kernel, k2: Kernel, ps: set<nat>, qs: set<nat>)
    requires OnlyCleared(k, k1, ps) && OnlyCleared(k1, k2, qs) && qs <= ps
    ensures OnlyCleared(k, k2, ps)
  {
  }

  lemma ClearedIsChurned(k: Kernel, k': Kernel, ps: set<nat>, mine: set<nat>, base: nat, band: Band)
    requires OnlyCleared(k, k', ps) && ps <= mine && forall i, q: nat :: Lookup(k, i, q).Some? ==> q <= base
    ensures Churned(k, k', mine, base, band)
  {
  }

  // What a watcher may do to the kernel: clear priorities it was given, and add filters of one band at
  // priorities above the counter.
  ghost predicate Churned(k: Kernel, k': Kernel, mine: set<nat>, base: nat, band: Band) {
    && (forall i, q: nat :: q <= base ==> Lookup(k', i, q) == Lookup(k, i, q) || (q in mine && Lookup(k', i, q).None?))
    && (forall i, q: nat :: q > base && Lookup(k', i, q).Some? ==> Lookup(k', i, q).value.band == band)
  }

  // Churning in two steps; in between, the watcher may have been given new priorities.
  lemma ChurnedTrans(k: Kernel, k1: Kernel, k2: Kernel, mine: set<nat>, more: set<nat>, base: nat, base1: nat,
                     band: Band)
    requires Churned(k, k1, mine, base, band) && Churned(k1, k2, mine + more, base1, band)
    requires base <= base1 && forall p :: p in more ==> base < p
    ensures Churned(k, k2, mine, base, band)
  {
  }

  // The 32-bit counter after n more allocations.
  function Counter(last: nat, n: nat): nat {
    (last + n) % UINT32
  }

  // The priorities above base, up to last.
  ghost function Above(base: nat, last: nat): (r: set<nat>)
    ensures forall p: nat :: p in r <==> base < p <= last
  {
    if last <= base then {} else Above(base, last - 1) + {last}
  }

  /* ---------- commands of the watchers ---------- */

  // A watcher asks for priorities, adds disrupting filters at priorities it was given, and deletes priorities it was
  // given.
  datatype Command = Ask | AddAt(iface: Iface, p: nat, m: Match) | DeleteAt(iface: Iface, p: nat)

  // What the watchers share: the filters, the counter, and which priorities each was given.
  datatype Shared = Shared(kernel: Kernel, last: nat, given: map<nat, set<nat>>)

  function Held(s: Shared, w: nat): set<nat> {
    if w in s.given then s.given[w] else {}
  }

  predicate Allowed(s: Shared, w: nat, c: Command) {
    match c
    case Ask => true
    case AddAt(_, p, _) => p in Held(s, w)
    case DeleteAt(_, p) => p in Held(s, w)
  }

  function Issue(s: Shared, w: nat, c: Command): Shared {
    match c
    case Ask => s.(last := s.last + 1, given := s.given[w := Held(s, w) + {s.last + 1}])
    case AddAt(i, p, m) => s.(kernel := Put(s.kernel, i, p, Filter(m, Disrupted)))
    case DeleteAt(i, p) => s.(kernel := Drop(s.kernel, i, p))
  }

  // Any interleaving of the commands of any watchers.
  ghost predicate Interleaved(s: Shared, run: seq<(nat, Command)>, s': Shared)
    decreases |run|
  {
    if run == [] then s' == s else
      Allowed(s, run[0].0, run[0].1) && Interleaved(Issue(s, run[0].0, run[0].1), run[1..], s')
  }

  lemma {:induction false} InterleavedTrans(s: Shared, run: seq<(nat, Command)>, s1: Shared,
                                            more: seq<(nat, Command)>, s2: Shared)
    requires Interleaved(s, run, s1) && Interleaved(s1, more, s2)
    ensures Interleaved(s, run + more, s2)
    decreases |run|
  {
    if run == [] {
      assert run + more == more;
    } else {
      assert (run + more)[1..] == run[1..] + more;
      InterleavedTrans(Issue(s, run[0].0, run[0].1), run[1..], s1, more, s2);
    }
  }

  lemma InterleavedMore(s: Shared, run: seq<(nat, Command)>, s1: Shared, w: nat, c: Command)
    requires Interleaved(s, run, s1) && Allowed(s1, w, c)
    ensures Interleaved(s, run + [(w, c)], Issue(s1, w, c))
  {
    assert [(w, c)][1..] == [];
    InterleavedTrans(s, run, s1, [(w, c)], Issue(s1, w, c));
  }

  lemma OneAsked(before: Shared, start: Shared, who: nat, last: nat)
    requires start.last < last && before.last == last - 1
    requires before.given == start.given[who := Held(start, who) + Above(start.last, last - 1)]
    ensures Issue(before, who, Ask).given == start.given[who := Held(start, who) + Above(start.last, last)]
  {
    assert Held(before, who) + {last} == Held(start, who) + Above(start.last, last);
  }

  // One watcher at work: who, what was shared when its turn began, and where the record of commands stood then.
  class Turn {
    ghost var on: bool
    ghost var who: nat
    ghost var start: Shared
    ghost var since: nat

    // What the watcher may delete: what it was given before, and what it asks for in this turn.
    ghost predicate Permits(ps: set<nat>)
      reads this
    {
      on ==> forall p :: p in ps ==> p in Held(start, who) || p > start.last
    }

    lemma PermitsMore(ps: set<nat>, more: set<nat>, base: nat)
      requires Permits(ps) && (on ==> start.last <= base) && forall p :: p in more ==> p in ps || p > base
      ensures Permits(more)
    {
    }

    constructor ()
      ensures !on
    {
      on := false;
    }
  }

  class Tc {
    var kernel: Kernel
    var last: nat                            // tcFilterPriority, a 32-bit counter
    var script: seq<bool>                    // outcome of the coming commands
    ghost var wrapped: bool                  // the counter has overflowed
    const turn: Turn                         // the watcher at work
    ghost var record: seq<(nat, Command)>    // the commands issued

    ghost predicate Valid()
      reads this
    {
      && last < UINT32
      && (!wrapped ==> FIRST_PRIORITY <= last)
      && (!wrapped ==> forall i, p: nat :: Lookup(kernel, i, p).Some? ==> FIRST_PRIORITY < p <= last)
    }

    // What is shared now: everything asked for in this turn was given to the watcher at work.
    ghost function Now(): Shared
      reads this, turn
    {
      Shared(kernel, last, turn.start.given[turn.who := Held(turn.start, turn.who) + Above(turn.start.last, last)])
    }

    // The commands of this turn are all allowed, and have led from what was shared to what is shared now.
    ghost predicate Logged()
      reads this, turn
    {
      turn.on && !wrapped ==>
        && turn.since <= |record| && turn.start.last <= last
        && Interleaved(turn.start, record[turn.since..], Now())
    }

    lemma LoggedCount()
      requires Logged()
      ensures turn.on && !wrapped ==> turn.start.last <= last
    {
    }

    lemma Unlogged()
      ensures !turn.on ==> Logged()
    {
    }

    // The turn of a watcher begins, with what everyone was given.
    ghost method Begin(who: nat, given: map<nat, set<nat>>)
      requires who in given
      modifies turn
      ensures turn.on && turn.who == who && turn.start == Shared(kernel, last, given) && turn.since == |record|
      ensures Logged() && turn.Permits(given[who])
    {
      turn.on, turn.who, turn.start, turn.since := true, who, Shared(kernel, last, given), |record|;
      assert Held(turn.start, who) + Above(last, last) == given[who];
      assert given[who := given[who]] == given;
    }

    // A command of the watcher at work goes on record.
    ghost method Note(c: Command, before: Shared)
      requires turn.on && !wrapped ==>
        && turn.since <= |record| && turn.start.last <= last && Interleaved(turn.start, record[turn.since..], before)
        && Allowed(before, turn.who, c) && Now() == Issue(before, turn.who, c)
      modifies this`record
      ensures Logged()
    {
      record := record + [(turn.who, c)];
      if turn.on && !wrapped {
        assert record[turn.since..] == old(record)[turn.since..] + [(turn.who, c)];
        InterleavedMore(turn.start, old(record)[turn.since..], before, turn.who, c);
      }
    }

    lemma Bounded()
      requires Valid()
      ensures !wrapped ==> forall i, p: nat :: Lookup(kernel, i, p).Some? ==> p <= last
    {
    }

    constructor ()
      ensures Valid() && !wrapped && kernel == map[] && last == FIRST_PRIORITY && script == []
      ensures fresh(turn) && !turn.on
    {
      kernel, last, script, wrapped, record := map[], FIRST_PRIORITY, [], false, [];
      turn := new Turn();
    }

    method Execute() returns (ok: bool)
      modifies this`script
      ensures old(script) == [] ==> ok && script == []
    {
      ok := true;
      if script != [] {
        ok, script := script[0], script[1..];
      }
    }

    method GetNewPriority() returns (p: Option<nat>)
      requires Valid() && Logged()
      modifies this`last, this`wrapped, this`record
      ensures Valid() && Logged() && (turn.on && !wrapped ==> turn.start.last < last)
      ensures last == Counter(old(last), 1)
      ensures wrapped <==> old(wrapped) || old(last) == UINT32 - 1
      ensures p == if last < PRIORITY_LIMIT then Some(last) else None
    {
      ghost var before := Now();
      if last == UINT32 - 1 {
        wrapped := true;
      }
      last := (last + 1) % UINT32;
      if turn.on && !wrapped {
        OneAsked(before, turn.start, turn.who, last);
      }
      Note(Ask, before);
      p := if last >= PRIORITY_LIMIT then None else Some(last);
    }

    // One fresh priority for all interfaces. A failing command leaves the filter on the interfaces
    // served so far, at a priority that is not returned.
    method AddFilter(ifaces: seq<Iface>, f: Filter) returns (p: Option<nat>)
      requires Valid() && Logged() && (turn.on ==> f.band == Disrupted)
      modifies this
      ensures Valid() && Logged() && (old(wrapped) ==> wrapped)
      ensures !wrapped ==> last == old(last) + 1
      ensures wrapped <==> old(wrapped) || old(last) == UINT32 - 1
      ensures p.Some? ==> last < PRIORITY_LIMIT
      ensures !wrapped ==> forall i, q: nat :: q != last ==> Lookup(kernel, i, q) == Lookup(old(kernel), i, q)
      ensures !wrapped ==> forall i :: Lookup(kernel, i, last).Some? ==> Lookup(kernel, i, last) == Some(f)
      ensures !wrapped && p.Some? ==> p.value == last && Added(old(kernel), kernel, ifaces, last, f)
      ensures old(script) == [] ==>
        script == [] && (p.Some? <==> last < PRIORITY_LIMIT) && (p.None? ==> kernel == old(kernel))
    {
      p := GetNewPriority();
      if p.None? {
        return;
      }
      for n := 0 to |ifaces|
        invariant last == old(last) + 1 || wrapped
        invariant wrapped <==> old(wrapped) || old(last) == UINT32 - 1
        invariant Valid() && (old(wrapped) ==> wrapped) && p == Some(last) && last < PRIORITY_LIMIT
        invariant Logged() && (turn.on && !wrapped ==> turn.start.last < last)
        invariant !wrapped ==> Added(old(kernel), kernel, ifaces[..n], last, f)
        invariant old(script) == [] ==> script == []
      {
        var ok := Execute();
        if !ok {
          return None;
        }
        PutLookup(kernel, ifaces[n], last, f);
        ghost var before := Now();
        kernel := Put(kernel, ifaces[n], last, f);
        Note(AddAt(ifaces[n], last, f.m), before);
        assert forall i :: i in ifaces[..n + 1] <==> i in ifaces[..n] || i == ifaces[n];
      }
      assert ifaces[..|ifaces|] == ifaces;
    }

    // tc refuses to delete a priority that holds no filter.
    method DeleteFilter(iface: Iface, p: nat) returns (ok: bool)
      requires Valid() && Logged() && (!wrapped ==> turn.Permits({p}))
      modifies this`kernel, this`script, this`record
      ensures Valid() && Logged()
      ensures ok ==> Lookup(old(kernel), iface, p).Some? && Removed(old(kernel), kernel, [iface], p)
      ensures !ok ==> kernel == old(kernel)
      ensures old(script) == [] ==> script == [] && (ok <==> Lookup(old(kernel), iface, p).Some?)
    {
      ok := Execute();
      if Lookup(kernel, iface, p).None? {
        ok := false;
      }
      if ok {
        DropLookup(kernel, iface, p);
        ghost var before := Now();
        kernel := Drop(kernel, iface, p);
        Note(DeleteAt(iface, p), before);
      }
    }

    // removeTcFilter: stops at the first failure.
    method RemoveFilter(ifaces: seq<Iface>, p: nat) returns (ok: bool)
      requires Valid() && Logged() && (!wrapped ==> turn.Permits({p}))
      modifies this`kernel, this`script, this`record
      ensures Valid() && Logged()
      ensures OnlyCleared(old(kernel), kernel, {p})
      ensures ok ==> Removed(old(kernel), kernel, ifaces, p)
      ensures old(script) == [] ==> script == []
      ensures old(script) == [] && Distinct(ifaces) ==>
        (ok <==> forall i :: i in ifaces ==> Lookup(old(kernel), i, p).Some?)
    {
      ok := true;
      for n := 0 to |ifaces|
        invariant Valid() && Logged()
        invariant Removed(old(kernel), kernel, ifaces[..n], p)
        invariant old(script) == [] ==> script == []
        invariant old(script) == [] ==> forall j :: 0 <= j < n ==> Lookup(old(kernel), ifaces[j], p).Some?
      {
        ok := DeleteFilter(ifaces[n], p);
        if !ok {
          return;
        }
      }
      assert ifaces[..|ifaces|] == ifaces;
    }
  }

  /* ---------- classification ---------- */

  // A packet goes where the matching filter of least priority sends it; the matching relation is left open.
  ghost predicate Hit<P(!new)>(k: Kernel, i: Iface, p: nat, pkt: P, matches: (Match, P) -> bool) {
    Lookup(k, i, p).Some? && matches(Lookup(k, i, p).value.m, pkt)
  }

  ghost predicate FirstHit<P(!new)>(k: Kernel, i: Iface, p: nat, pkt: P, matches: (Match, P) -> bool) {
    Hit(k, i, p, pkt, matches) && forall q: nat :: Hit(k, i, q, pkt, matches) ==> p <= q
  }

  lemma {:induction false} FirstHitExists<P(!new)>(k: Kernel, i: Iface, p: nat, pkt: P, matches: (Match, P) -> bool)
    returns (first: nat)
    requires Hit(k, i, p, pkt, matches)
    ensures FirstHit(k, i, first, pkt, matches) && first <= p
    decreases p
  {
    if q: nat :| q < p && Hit(k, i, q, pkt, matches) {
      first := FirstHitExists(k, i, q, pkt, matches);
    } else {
      first := p;
    }
  }

  // Every filter up to the boundary spares its packets, every later one disrupts them.
  ghost predicate Layered(k: Kernel, boundary: nat) {
    forall i, p: nat :: Lookup(k, i, p).Some? ==> (Lookup(k, i, p).value.band == Spared <==> p <= boundary)
  }

  // In a layered table, a packet that some sparing filter of the interface matches is spared.
  lemma SparedPacketIsSpared<P(!new)>(k: Kernel, boundary: nat, i: Iface, p: nat, pkt: P, matches: (Match, P) -> bool)
    returns (first: nat)
    requires Layered(k, boundary)
    requires Hit(k, i, p, pkt, matches) && Lookup(k, i, p).value.band == Spared
    ensures FirstHit(k, i, first, pkt, matches) && Lookup(k, i, first).value.band == Spared
    ensures forall q: nat :: FirstHit(k, i, q, pkt, matches) ==> q == first
  {
    first := FirstHitExists(k, i, p, pkt, matches);
  }

  /* ---------- the allocator over a whole injection ---------- */

  // Allocations add up, so that after n of them the counter is Counter(last, n).
  lemma CounterAdds(last: nat, m: nat, n: nat)
    ensures Counter(Counter(last, m), n) == Counter(last, m + n)
  {
    var a := last + m;
    assert a == (a / UINT32) * UINT32 + a % UINT32;
    assert a + n == (a / UINT32) * UINT32 + (a % UINT32 + n);
    Multiple(a / UINT32, a % UINT32 + n);
  }

  lemma Multiple(k: nat, x: nat)
    ensures (k * UINT32 + x) % UINT32 == x % UINT32
  {
    assert k * UINT32 + x == (k + x / UINT32) * UINT32 + x % UINT32;
  }

  // Two allocations get the same counter value exactly when they are a multiple of 2^32 apart; before the first
  // overflow the values strictly increase.
  lemma PrioritiesNeverReused(last: nat, m: nat, n: nat)
    requires m < n
    ensures Counter(last, m) == Counter(last, n) <==> (n - m) % UINT32 == 0
    ensures last + n < UINT32 ==> Counter(last, m) < Counter(last, n)
  {
    var a, b := last + m, last + n;
    assert a == (a / UINT32) * UINT32 + a % UINT32;
    assert b == (b / UINT32) * UINT32 + b % UINT32;
    assert b - a == (b / UINT32 - a / UINT32) * UINT32 + (b % UINT32 - a % UINT32);
  }
}
