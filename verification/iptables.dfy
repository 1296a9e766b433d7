// Injected iptables rules (network/iptables.go): whatever is inserted, a Clear that succeeds gives back the original
// rules. Which commands fail without effect is read off a script that is left arbitrary.
module IpTables {
  import opened DisruptionTypes

  type Rulespec = seq<string>

  datatype Chain = Chain(table: string, name: string)

  datatype Rule = Rule(chain: Chain, spec: Rulespec)

  type Tables = map<Chain, seq<Rulespec>>

  const CHAOS_CHAIN := "CHAOS-DNS"
  const CHAOS := Chain("nat", CHAOS_CHAIN)

  predicate JumpsTo(spec: Rulespec, name: string) {
    exists i :: 0 <= i < |spec| - 1 && spec[i] == "-j" && spec[i + 1] == name
  }

  // Some rule of the table jumps to the chain.
  predicate Referenced(t: Tables, c: Chain) {
    exists d, spec :: d in t && d.table == c.table && spec in t[d] && JumpsTo(spec, c.name)
  }

  function RulesOf(t: Tables, c: Chain): seq<Rulespec> {
    if c in t then t[c] else []
  }

  // Deletion removes the first rule that matches.
  function RemoveFirst(s: seq<Rulespec>, x: Rulespec): seq<Rulespec> {
    if s == [] then [] else if s[0] == x then s[1..] else [s[0]] + RemoveFirst(s[1..], x)
  }

  lemma {:induction false} RemoveFirstPart(a: seq<Rulespec>, b: seq<Rulespec>, x: Rulespec)
    requires x !in b
    ensures RemoveFirst(a + b, x) == RemoveFirst(a, x) + b
  {
    if a == [] {
      assert a + b == b;
      RemoveAbsent(b, x);
    } else if a[0] == x {
      assert (a + b)[1..] == a[1..] + b;
    } else {
      RemoveFirstPart(a[1..], b, x);
      assert (a + b)[1..] == a[1..] + b;
    }
  }

  lemma {:induction false} RemoveAbsent(s: seq<Rulespec>, x: Rulespec)
    requires x !in s
    ensures RemoveFirst(s, x) == s
  {
    if s != [] {
      RemoveAbsent(s[1..], x);
    }
  }

  lemma {:induction false} RemoveDistinct(s: seq<Rulespec>, x: Rulespec)
    requires Distinct(s)
    ensures Distinct(RemoveFirst(s, x)) && forall y :: y in RemoveFirst(s, x) <==> y in s && y != x
  {
    if s != [] {
      assert s == [s[0]] + s[1..];
      assert Distinct(s[1..]) && s[0] !in s[1..];
      RemoveDistinct(s[1..], x);
    }
  }

  // The rules of a chain are the live injected ones, latest first, on top of the original ones.
  ghost predicate LayeredChain(c: Chain, rules: seq<Rulespec>, orig: seq<Rulespec>, alive: seq<Rulespec>,
                               injected: seq<Rule>)
  {
    && rules == alive + orig && Distinct(alive)
    && forall x :: x in alive ==> Rule(c, x) in injected
  }

  ghost predicate Layered(t: Tables, base: Tables, live: Tables, injected: seq<Rule>) {
    forall c :: c in t ==> LayeredChain(c, t[c], RulesOf(base, c), RulesOf(live, c), injected)
  }

  lemma ChainPushed(c: Chain, rules: seq<Rulespec>, orig: seq<Rulespec>, alive: seq<Rulespec>, injected: seq<Rule>,
                    x: Rulespec)
    requires LayeredChain(c, rules, orig, alive, injected) && x !in rules
    ensures LayeredChain(c, [x] + rules, orig, [x] + alive, injected + [Rule(c, x)]) && x !in orig
  {
    assert [x] + rules == [x] + alive + orig;
    assert forall y :: y in alive + orig <==> y in alive || y in orig;
    assert forall y :: y in [x] + alive <==> y == x || y in alive;
    assert forall r :: r in injected + [Rule(c, x)] <==> r in injected || r == Rule(c, x);
  }

  lemma ChainKept(c: Chain, rules: seq<Rulespec>, orig: seq<Rulespec>, alive: seq<Rulespec>, injected: seq<Rule>,
                  r: Rule)
    requires LayeredChain(c, rules, orig, alive, injected)
    ensures LayeredChain(c, rules, orig, alive, injected + [r])
  {
    assert forall q :: q in injected ==> q in injected + [r];
  }

  lemma ChainPopped(c: Chain, rules: seq<Rulespec>, orig: seq<Rulespec>, alive: seq<Rulespec>, injected: seq<Rule>,
                    x: Rulespec)
    requires LayeredChain(c, rules, orig, alive, injected) && x !in orig
    ensures LayeredChain(c, RemoveFirst(rules, x), orig, RemoveFirst(alive, x), injected)
    ensures forall y :: y in RemoveFirst(alive, x) <==> y in alive && y != x
    ensures forall y :: y in RemoveFirst(rules, x) ==> y in rules
  {
    RemoveFirstPart(alive, orig, x);
    RemoveDistinct(alive, x);
    assert forall y :: y in RemoveFirst(alive, x) + orig <==> y in RemoveFirst(alive, x) || y in orig;
    assert forall y :: y in alive + orig <==> y in alive || y in orig;
  }

  // No injected rule is one of the original ones.
  ghost predicate Foreign(base: Tables, injected: seq<Rule>) {
    forall r :: r in injected ==> r.spec !in RulesOf(base, r.chain)
  }

  // The dedicated chain may come and go; if it was there at first, it goes only when it was empty.
  ghost predicate SameChains(t: Tables, base: Tables, live: Tables) {
    && (forall c :: c in live ==> c in t)
    && (forall c :: c != CHAOS ==> (c in t <==> c in base))
    && (CHAOS in base && CHAOS !in t ==> base[CHAOS] == [])
  }

  // The dedicated chain was there at first and nothing used it.
  ghost predicate Unused(base: Tables) {
    CHAOS in base && base[CHAOS] == [] && !Referenced(base, CHAOS)
  }

  lemma EmptyChain(t: Tables, base: Tables, live: Tables, injected: seq<Rule>)
    requires Layered(t, base, live, injected) && SameChains(t, base, live) && CHAOS !in t
    ensures Layered(t[CHAOS := []], base, live, injected) && SameChains(t[CHAOS := []], base, live)
  {
    assert LayeredChain(CHAOS, [], [], [], injected);
  }

  lemma RuleAdded(t: Tables, base: Tables, live: Tables, injected: seq<Rule>, c: Chain, x: Rulespec)
    requires Layered(t, base, live, injected) && Foreign(base, injected) && SameChains(t, base, live)
    requires c in t && x !in t[c]
    ensures Layered(t[c := [x] + t[c]], base, live[c := [x] + RulesOf(live, c)], injected + [Rule(c, x)])
    ensures Foreign(base, injected + [Rule(c, x)])
    ensures SameChains(t[c := [x] + t[c]], base, live[c := [x] + RulesOf(live, c)])
  {
    hide LayeredChain;
    ChainPushed(c, t[c], RulesOf(base, c), RulesOf(live, c), injected, x);
    forall d | d in t && d != c
      ensures LayeredChain(d, t[d], RulesOf(base, d), RulesOf(live, d), injected + [Rule(c, x)])
    {
      ChainKept(d, t[d], RulesOf(base, d), RulesOf(live, d), injected, Rule(c, x));
    }
  }

  lemma RuleGone(t: Tables, base: Tables, live: Tables, injected: seq<Rule>, c: Chain, x: Rulespec)
    requires Layered(t, base, live, injected) && Foreign(base, injected) && SameChains(t, base, live)
    requires c in t && Rule(c, x) in injected
    ensures Layered(t[c := RemoveFirst(t[c], x)], base, live[c := RemoveFirst(RulesOf(live, c), x)], injected)
    ensures SameChains(t[c := RemoveFirst(t[c], x)], base, live[c := RemoveFirst(RulesOf(live, c), x)])
    ensures forall y :: y in RemoveFirst(RulesOf(live, c), x) <==> y in RulesOf(live, c) && y != x
    ensures forall y :: y in RemoveFirst(t[c], x) ==> y in t[c]
  {
    hide LayeredChain, RemoveFirst;
    ChainPopped(c, t[c], RulesOf(base, c), RulesOf(live, c), injected, x);
  }

  // A rule that is not in its chain is not live.
  lemma NotThere(t: Tables, base: Tables, live: Tables, injected: seq<Rule>, r: Rule)
    requires Layered(t, base, live, injected) && SameChains(t, base, live) && r.spec !in RulesOf(t, r.chain)
    ensures r.spec !in RulesOf(live, r.chain)
  {
    if r.chain in t {
      assert LayeredChain(r.chain, t[r.chain], RulesOf(base, r.chain), RulesOf(live, r.chain), injected);
      assert forall y :: y in RulesOf(live, r.chain) ==> y in RulesOf(live, r.chain) + RulesOf(base, r.chain);
    }
  }

  // References come with rules and go with them.
  lemma NoNewReference(t: Tables, c: Chain, x: Rulespec)
    requires c in t && !Referenced(t, CHAOS) && !(c.table == CHAOS.table && JumpsTo(x, CHAOS_CHAIN))
    ensures !Referenced(t[c := [x] + t[c]], CHAOS)
  {
    hide JumpsTo;
  }

  lemma FewerReferences(t: Tables, c: Chain, rules: seq<Rulespec>)
    requires c in t && !Referenced(t, CHAOS) && forall y :: y in rules ==> y in t[c]
    ensures !Referenced(t[c := rules], CHAOS)
  {
    hide JumpsTo;
  }

  // The first n recorded rules are not live any more.
  ghost predicate AllGone(live: Tables, injected: seq<Rule>, n: nat) {
    n <= |injected| && forall j :: 0 <= j < n ==> injected[j].spec !in RulesOf(live, injected[j].chain)
  }

  lemma NoneGone(live: Tables, injected: seq<Rule>)
    ensures AllGone(live, injected, 0)
  {
  }

  lemma OneMoreGone(live: Tables, live': Tables, injected: seq<Rule>, n: nat)
    requires AllGone(live, injected, n) && n < |injected| && injected[n].spec !in RulesOf(live', injected[n].chain)
    requires forall c, x :: x in RulesOf(live', c) ==> x in RulesOf(live, c)
    ensures AllGone(live', injected, n + 1)
  {
  }

  // Once every recorded rule is gone, so is every live one.
  lemma NothingLive(t: Tables, base: Tables, live: Tables, injected: seq<Rule>)
    requires Layered(t, base, live, injected) && AllGone(live, injected, |injected|)
    ensures forall c :: c in t ==> RulesOf(live, c) == [] && t[c] == RulesOf(base, c)
  {
    forall c | c in t ensures RulesOf(live, c) == [] {
      assert LayeredChain(c, t[c], RulesOf(base, c), RulesOf(live, c), injected);
      assert forall x :: x in RulesOf(live, c) ==> Rule(c, x).spec !in RulesOf(live, Rule(c, x).chain);
      EmptyWithoutElements(RulesOf(live, c));
    }
  }

  lemma ChainDeleted(t: Tables, base: Tables, live: Tables, injected: seq<Rule>)
    requires Layered(t, base, live, injected) && SameChains(t, base, live)
    requires CHAOS in t && t[CHAOS] == [] && !Referenced(t, CHAOS)
    ensures Layered(t - {CHAOS}, base, live - {CHAOS}, injected) && SameChains(t - {CHAOS}, base, live - {CHAOS})
    ensures !Referenced(t - {CHAOS}, CHAOS)
  {
    hide JumpsTo;
    assert LayeredChain(CHAOS, t[CHAOS], RulesOf(base, CHAOS), RulesOf(live, CHAOS), injected);
  }

  lemma Restored(t: Tables, base: Tables, live: Tables)
    requires SameChains(t, base, live) && forall c :: c in t ==> t[c] == RulesOf(base, c)
    requires (CHAOS !in t ==> !Referenced(t, CHAOS)) && (CHAOS !in base ==> !Referenced(base, CHAOS))
    requires CHAOS in t ==> t[CHAOS] != [] || Referenced(t, CHAOS)
    ensures t == (if Unused(base) then base - {CHAOS} else base) && forall there :: t == Cleaned(base, there, true)
  {
    hide JumpsTo;
    SameReferences(t, base, live);
  }

  // The original rules are back, and the dedicated chain is as it is.
  lemma RulesRestored(t: Tables, base: Tables, live: Tables)
    requires SameChains(t, base, live) && forall c :: c in t ==> t[c] == RulesOf(base, c)
    ensures t == Cleaned(base, CHAOS in t, false)
  {
  }

  // The original tables with the dedicated chain, its original rules in it, or without it.
  function WithChain(base: Tables, there: bool): Tables {
    if there then base[CHAOS := RulesOf(base, CHAOS)] else base - {CHAOS}
  }

  // What a successful Clear leaves: it depends on whether the last command, the deletion of the dedicated chain, was
  // let through and, if it was not, on whether the chain was there.
  ghost function Cleaned(base: Tables, there: bool, through: bool): Tables {
    if through then if Unused(base) then base - {CHAOS} else base
    else WithChain(base, there)
  }

  // When that is the original state.
  lemma CleanedIsBase(base: Tables, there: bool, through: bool)
    ensures Cleaned(base, there, through) == base <==> if through then !Unused(base) else (there <==> CHAOS in base)
    ensures Cleaned(base, there, through) - {CHAOS} == base - {CHAOS}
    ensures forall c :: c != CHAOS ==>
      && (c in Cleaned(base, there, through) <==> c in base)
      && RulesOf(Cleaned(base, there, through), c) == RulesOf(base, c)
  {
    var t := Cleaned(base, there, through);
    assert CHAOS in base && there ==> base[CHAOS := RulesOf(base, CHAOS)] == base;
    assert CHAOS !in base ==> base - {CHAOS} == base;
  }

  lemma SameReferences(t: Tables, base: Tables, live: Tables)
    requires SameChains(t, base, live) && forall c :: c in t ==> t[c] == RulesOf(base, c)
    ensures Referenced(t, CHAOS) <==> Referenced(base, CHAOS)
  {
    hide JumpsTo;
    if Referenced(base, CHAOS) {
      var d, spec :| d in base && d.table == CHAOS.table && spec in base[d] && JumpsTo(spec, CHAOS.name);
      assert d in t && spec in t[d];
    }
    if Referenced(t, CHAOS) {
      var d, spec :| d in t && d.table == CHAOS.table && spec in t[d] && JumpsTo(spec, CHAOS.name);
      assert d in base && spec in base[d];
    }
  }

  // The rule is on top of its chain if it was not in it before; no other rule has come, gone or moved.
  ghost predicate Topped(was: Tables, t: Tables, chain: Chain, spec: Rulespec, done: bool) {
    && (forall c :: c != chain ==> RulesOf(t, c) == RulesOf(was, c))
    && RulesOf(t, chain) ==
       (if done && spec !in RulesOf(was, chain) then [spec] else []) + RulesOf(was, chain)
  }

  predicate Allows(script: seq<bool>, n: nat) {
    n < |script| ==> script[n]
  }

  function Rest(script: seq<bool>, n: nat): seq<bool> {
    if n <= |script| then script[n..] else []
  }

  // No command will fail.
  predicate Smooth(script: seq<bool>) {
    forall n :: 0 <= n < |script| ==> script[n]
  }

  lemma SmoothRest(script: seq<bool>, n: nat)
    ensures Smooth(script) ==> Smooth(Rest(script, n)) && Allows(script, n)
  {
  }

  // Then Clear succeeds.
  lemma {:induction false} SmoothSucceeds(script: seq<bool>, t: Tables, rules: seq<Rule>)
    requires Smooth(script)
    ensures Succeeds(script, t, rules)
    decreases |rules|
  {
    hide RemoveFirst;
    if rules != [] {
      var r := rules[0];
      if r.spec in RulesOf(t, r.chain) {
        SmoothSucceeds(Rest(script, 1), t[r.chain := RemoveFirst(RulesOf(t, r.chain), r.spec)], rules[1..]);
      } else {
        SmoothSucceeds(Rest(script, 2), t, rules[1..]);
      }
    }
  }

  lemma RestOfNone(script: seq<bool>)
    ensures Rest(script, 0) == script
  {
  }

  lemma RestOfRest(script: seq<bool>, m: nat, n: nat)
    ensures Rest(Rest(script, m), n) == Rest(script, m + n) && (Allows(Rest(script, m), n) <==> Allows(script, m + n))
  {
  }

  // How many commands it takes to delete the rules: one for a rule that is there, two for one that is not.
  function Commands(t: Tables, rules: seq<Rule>): nat
    decreases |rules|
  {
    if rules == [] then 0
    else if rules[0].spec in RulesOf(t, rules[0].chain) then
      1 + Commands(t[rules[0].chain := RemoveFirst(RulesOf(t, rules[0].chain), rules[0].spec)], rules[1..])
    else 2 + Commands(t, rules[1..])
  }

  // Whether the script lets all of them be deleted: each deletion must go through, or the rule turn out not to be
  // there.
  predicate Succeeds(script: seq<bool>, t: Tables, rules: seq<Rule>)
    decreases |rules|
  {
    if rules == [] then true
    else if rules[0].spec in RulesOf(t, rules[0].chain) then
      Allows(script, 0) &&
      Succeeds(Rest(script, 1), t[rules[0].chain := RemoveFirst(RulesOf(t, rules[0].chain), rules[0].spec)], rules[1..])
    else Allows(script, 1) && Succeeds(Rest(script, 2), t, rules[1..])
  }

  class IPTables {
    const dryRun: bool
    var tables: Tables
    var injectedRules: seq<Rule>
    var script: seq<bool>
    ghost const base: Tables
    ghost var live: Tables

    ghost predicate Valid()
      reads this
    {
      && Layered(tables, base, live, injectedRules) && Foreign(base, injectedRules) && SameChains(tables, base, live)
      && (CHAOS !in tables ==> !Referenced(tables, CHAOS)) && (CHAOS !in base ==> !Referenced(base, CHAOS))
    }

    constructor (dryRun: bool, tables: Tables)
      requires CHAOS !in tables ==> !Referenced(tables, CHAOS)
      ensures Valid() && base == tables && this.tables == tables && injectedRules == [] && this.dryRun == dryRun
      ensures script == []
    {
      this.dryRun, this.tables, base, live := dryRun, tables, tables, map[];
      injectedRules, script := [], [];
      new;
      assert forall c :: RulesOf(live, c) + RulesOf(base, c) == RulesOf(base, c);
    }

    method Execute() returns (ok: bool)
      modifies this`script
      ensures ok == Allows(old(script), 0) && script == Rest(old(script), 1)
    {
      ok := true;
      if script != [] {
        ok, script := script[0], script[1..];
      }
    }

    // The dedicated chain is created if it is not there.
    method EnsureChain() returns (ok: bool)
      requires Valid()
      modifies this`tables, this`script
      ensures Valid() && (ok ==> CHAOS in tables)
      ensures forall c :: RulesOf(tables, c) == RulesOf(old(tables), c)
      ensures forall c :: c != CHAOS ==> (c in tables <==> c in old(tables))
      ensures old(script) == [] ==> script == [] && ok
      ensures Smooth(old(script)) ==> Smooth(script)
    {
      hide Layered, Foreign, SameChains, Referenced, JumpsTo, Smooth;
      SmoothRest(script, 1);
      ok := Execute();
      if ok && CHAOS !in tables {
        SmoothRest(script, 1);
        ok := Execute();
        if ok {
          EmptyChain(tables, base, live, injectedRules);
          tables := tables[CHAOS := []];
        }
      }
    }

    // insert: the rule goes to the top of its chain, unless it is there already.
    method Insert(chain: Chain, spec: Rulespec) returns (ok: bool)
      requires Valid() && (chain.name == CHAOS_CHAIN ==> chain == CHAOS)
      modifies this
      ensures Valid() && (dryRun ==> ok && tables == old(tables))
      ensures Topped(old(tables), tables, chain, spec, ok && !dryRun)
      ensures forall c :: c != chain ==> (c in tables <==> c in old(tables))
      ensures ok && !dryRun && chain == CHAOS ==> CHAOS in tables
      ensures injectedRules == old(injectedRules) +
        if ok && !dryRun && spec !in RulesOf(old(tables), chain) then [Rule(chain, spec)] else []
      ensures old(script) == [] ==> script == [] && (chain == CHAOS ==> ok)
      ensures Smooth(old(script)) ==> Smooth(script)
    {
      hide Layered, Foreign, SameChains, Referenced, JumpsTo, Smooth;
      ok := true;
      if dryRun {
        return;
      }
      if chain.name == CHAOS_CHAIN {
        ok := EnsureChain();
        if !ok {
          return;
        }
      }
      SmoothRest(script, 1);
      ok := Execute();
      if !ok || spec in RulesOf(tables, chain) {
        return;
      }
      SmoothRest(script, 1);
      ok := Execute();
      if chain !in tables || (chain.table == CHAOS.table && JumpsTo(spec, CHAOS_CHAIN) && CHAOS !in tables) {
        ok := false;
      }
      if ok {
        RuleAdded(tables, base, live, injectedRules, chain, spec);
        if CHAOS !in tables {
          NoNewReference(tables, chain, spec);
        }
        tables := tables[chain := [spec] + tables[chain]];
        live := live[chain := [spec] + RulesOf(live, chain)];
        injectedRules := injectedRules + [Rule(chain, spec)];
      }
    }

    // Deletion of one recorded rule; when it fails and the rule turns out not to be there, it is skipped. The ghost
    // result is the number of commands.
    method DeleteRule(r: Rule, ghost rest: seq<Rule>) returns (ok: bool, ghost n: nat)
      requires Valid() && r in injectedRules
      modifies this`tables, this`live, this`script
      ensures Valid() && tables.Keys == old(tables.Keys)
      ensures forall c, x :: x in RulesOf(live, c) ==> x in RulesOf(old(live), c)
      ensures ok ==> r.spec !in RulesOf(live, r.chain)
      ensures script == Rest(old(script), n)
      ensures ok ==> Commands(old(tables), [r] + rest) == n + Commands(tables, rest)
      ensures Succeeds(old(script), old(tables), [r] + rest) == (ok && Succeeds(script, tables, rest))
    {
      hide Layered, Foreign, SameChains, Referenced, RemoveFirst, Commands, Succeeds, Allows, Rest;
      RestOfRest(script, 1, 0);
      RestOfRest(script, 1, 1);
      n := 1;
      ok := Execute();
      if ok && r.spec in RulesOf(tables, r.chain) {
        RuleGone(tables, base, live, injectedRules, r.chain, r.spec);
        if !Referenced(tables, CHAOS) {
          FewerReferences(tables, r.chain, RemoveFirst(tables[r.chain], r.spec));
        }
        tables := tables[r.chain := RemoveFirst(tables[r.chain], r.spec)];
        live := live[r.chain := RemoveFirst(RulesOf(live, r.chain), r.spec)];
      } else {
        n := 2;
        ok := Execute();
        if r.spec in RulesOf(tables, r.chain) {
          ok := false;
        } else {
          NotThere(tables, base, live, injectedRules, r);
        }
      }
      CommandsNext(old(script), old(tables), r, rest);
    }

    // The loop over the recorded rules.
    method DeleteRules() returns (ok: bool)
      requires Valid()
      modifies this`tables, this`live, this`script
      ensures Valid() && tables.Keys == old(tables.Keys)
      ensures ok <==> Succeeds(old(script), old(tables), injectedRules)
      ensures ok ==> AllGone(live, injectedRules, |injectedRules|)
      ensures ok ==> script == Rest(old(script), Commands(old(tables), injectedRules))
      ensures Smooth(old(script)) ==> Smooth(script)
    {
      hide Layered, Foreign, SameChains, Referenced, Commands, Succeeds, Allows, Rest, AllGone, RulesOf;
      ok := true;
      ghost var count: nat := 0;
      RestOfNone(script);
      assert injectedRules[0..] == injectedRules;
      NoneGone(live, injectedRules);
      for n := 0 to |injectedRules|
        invariant Valid() && tables.Keys == old(tables.Keys) && ok && AllGone(live, injectedRules, n)
        invariant script == Rest(old(script), count)
        invariant Commands(old(tables), injectedRules) == count + Commands(tables, injectedRules[n..])
        invariant Succeeds(old(script), old(tables), injectedRules) == Succeeds(script, tables, injectedRules[n..])
      {
        assert injectedRules[n..] == [injectedRules[n]] + injectedRules[n + 1..];
        ghost var more, was := 0, live;
        ok, more := DeleteRule(injectedRules[n], injectedRules[n + 1..]);
        RestOfRest(old(script), count, more);
        SmoothRest(old(script), count + more);
        if !ok {
          return;
        }
        OneMoreGone(was, live, injectedRules, n);
        count := count + more;
      }
      NoCommands(tables);
      SmoothRest(old(script), count);
    }

    // Clear never forgets a rule it injected, so later calls try to delete it again. When it succeeds the original
    // rules are back; of the dedicated chain, whose deletion may fail unnoticed, Cleaned tells what is left.
    method Clear() returns (ok: bool)
      requires Valid()
      modifies this`tables, this`live, this`script
      ensures Valid() && (dryRun ==> ok && tables == old(tables))
      ensures ok && !dryRun ==>
        tables == Cleaned(base, CHAOS in old(tables), Allows(old(script), Commands(old(tables), injectedRules)))
      ensures !dryRun ==> (ok <==> Succeeds(old(script), old(tables), injectedRules))
      ensures Smooth(old(script)) ==> Smooth(script)
      ensures Smooth(old(script)) && !dryRun ==> ok && tables == if Unused(base) then base - {CHAOS} else base
    {
      hide Layered, Foreign, SameChains, Referenced, Commands, Succeeds, Allows, Rest, Cleaned, RulesOf, AllGone,
        Smooth, Unused;
      if Smooth(script) {
        SmoothSucceeds(script, tables, injectedRules);
        SmoothRest(script, Commands(tables, injectedRules));
      }
      ok := true;
      if dryRun {
        return;
      }
      ok := DeleteRules();
      if !ok {
        return;
      }
      NothingLive(tables, base, live, injectedRules);
      RestOfRest(old(script), Commands(old(tables), injectedRules), 0);
      SmoothRest(script, 1);
      var deleted := Execute();
      if deleted && CHAOS in tables && tables[CHAOS] == [] && !Referenced(tables, CHAOS) {
        ChainDeleted(tables, base, live, injectedRules);
        tables, live := tables - {CHAOS}, live - {CHAOS};
      }
      if deleted {
        Restored(tables, base, live);
      } else {
        RulesRestored(tables, base, live);
      }
    }

    /* ---------- public operations ---------- */

    method LogConntrack() returns (ok: bool)
      requires Valid()
      modifies this
      ensures Valid() && Topped(old(tables), tables, Chain("nat", "OUTPUT"), CONNTRACK, ok && !dryRun)
      ensures Smooth(old(script)) ==> Smooth(script)
    {
      ok := Insert(Chain("nat", "OUTPUT"), CONNTRACK);
    }

    method RedirectTo(protocol: string, port: string, destination: string) returns (ok: bool)
      requires Valid()
      modifies this
      ensures Valid() && Topped(old(tables), tables, CHAOS, RedirectSpec(protocol, port, destination), ok && !dryRun)
      ensures ok && !dryRun ==> CHAOS in tables
      ensures injectedRules == old(injectedRules) +
        if ok && !dryRun && RedirectSpec(protocol, port, destination) !in RulesOf(old(tables), CHAOS)
        then [Rule(CHAOS, RedirectSpec(protocol, port, destination))] else []
      ensures forall c :: c != CHAOS ==> (c in tables <==> c in old(tables))
      ensures old(script) == [] ==> script == [] && ok
      ensures Smooth(old(script)) ==> Smooth(script)
    {
      ok := Insert(CHAOS, RedirectSpec(protocol, port, destination));
    }

    // Packets jump to the dedicated chain from OUTPUT and, when no cgroup is given, from PREROUTING.
    method Intercept(protocol: string, port: string, cgroupPath: string, cgroupClassId: string, injectorPodIp: string)
      returns (ok: bool)
      requires Valid()
      modifies this
      ensures Valid()
      ensures cgroupPath != "" && cgroupClassId != "" ==> !ok && tables == old(tables)
      ensures ok && !dryRun ==>
        var spec := InterceptSpec(protocol, port, cgroupPath, cgroupClassId, injectorPodIp);
        && spec in RulesOf(tables, Chain("nat", "OUTPUT"))
        && (cgroupPath == "" && cgroupClassId == "" ==> spec in RulesOf(tables, Chain("nat", "PREROUTING")))
      ensures Smooth(old(script)) ==> Smooth(script)
    {
      if cgroupPath != "" && cgroupClassId != "" {
        return false;
      }
      var spec := InterceptSpec(protocol, port, cgroupPath, cgroupClassId, injectorPodIp);
      ok := Insert(Chain("nat", "OUTPUT"), spec);
      if !ok {
        return;
      }
      if cgroupPath == "" && cgroupClassId == "" {
        ok := Insert(Chain("nat", "PREROUTING"), spec);
      }
    }

    method MarkCgroupPath(cgroupPath: string, mark: string) returns (ok: bool)
      requires Valid()
      modifies this
      ensures Valid()
      ensures Topped(old(tables), tables, Chain("mangle", "POSTROUTING"), MarkSpec("--path", cgroupPath, mark),
        ok && !dryRun)
      ensures Smooth(old(script)) ==> Smooth(script)
    {
      ok := Insert(Chain("mangle", "POSTROUTING"), MarkSpec("--path", cgroupPath, mark));
    }

    method MarkClassId(classId: string, mark: string) returns (ok: bool)
      requires Valid()
      modifies this
      ensures Valid()
      ensures Topped(old(tables), tables, Chain("mangle", "POSTROUTING"), MarkSpec("--cgroup", classId, mark),
        ok && !dryRun)
      ensures Smooth(old(script)) ==> Smooth(script)
    {
      ok := Insert(Chain("mangle", "POSTROUTING"), MarkSpec("--cgroup", classId, mark));
    }

    method Perform(op: Operation) returns (ok: bool)
      requires Valid()
      modifies this
      ensures Valid() && (Smooth(old(script)) ==> Smooth(script))
    {
      hide Smooth, Layered, Foreign, SameChains, Referenced, Cleaned, Succeeds, Commands, Topped, Unused;
      match op
      case Conntrack => ok := LogConntrack();
      case Redirect(protocol, port, destination) => ok := RedirectTo(protocol, port, destination);
      case Jump(protocol, port, path, classId, ip) => ok := Intercept(protocol, port, path, classId, ip);
      case MarkPath(path, mark) => ok := MarkCgroupPath(path, mark);
      case MarkClass(classId, mark) => ok := MarkClassId(classId, mark);
      case ClearAll => ok := Clear();
    }

    // Any operations, failing or not, in any number of cycles: a Clear that succeeds restores every chain but the
    // dedicated one, which is gone, as it was, or there with its original rules. When no command fails, the last Clear
    // succeeds, and the tables are the original ones exactly if the dedicated chain was not there unused at first.
    method Cycles(ops: seq<Operation>) returns (ok: bool)
      requires Valid()
      modifies this
      ensures Valid()
      ensures ok && !dryRun ==> tables - {CHAOS} == base - {CHAOS}
      ensures ok && !dryRun ==> tables in {base, base - {CHAOS}, WithChain(base, true)}
      ensures Smooth(old(script)) && !dryRun ==> ok && (tables == base <==> !Unused(base))
    {
      hide Smooth, Layered, Foreign, SameChains, Referenced, Succeeds, Commands;
      for n := 0 to |ops|
        invariant Valid() && (Smooth(old(script)) ==> Smooth(script))
      {
        ok := Perform(ops[n]);
      }
      ghost var there, through := CHAOS in tables, Allows(script, Commands(tables, injectedRules));
      ok := Clear();
      CleanedIsBase(base, there, through);
      CleanedIsBase(base, there, true);
    }
  }

  lemma CommandsNext(script: seq<bool>, t: Tables, r: Rule, rest: seq<Rule>)
    ensures r.spec in RulesOf(t, r.chain) ==>
      var t' := t[r.chain := RemoveFirst(RulesOf(t, r.chain), r.spec)];
      && Commands(t, [r] + rest) == 1 + Commands(t', rest)
      && Succeeds(script, t, [r] + rest) == (Allows(script, 0) && Succeeds(Rest(script, 1), t', rest))
    ensures r.spec !in RulesOf(t, r.chain) ==>
      && Commands(t, [r] + rest) == 2 + Commands(t, rest)
      && Succeeds(script, t, [r] + rest) == (Allows(script, 1) && Succeeds(Rest(script, 2), t, rest))
  {
    assert ([r] + rest)[1..] == rest;
  }

  lemma NoCommands(t: Tables)
    ensures Commands(t, []) == 0 && forall script :: Succeeds(script, t, [])
  {
  }

  // A chain that is left behind: the redirection is cleared, the deletion of the chain fails, and Clear succeeds.
  method LeftoverChain(protocol: string, port: string, destination: string) returns (run: IPTables, ok: bool)
    ensures fresh(run) && ok && run.base == map[] && run.tables == map[CHAOS := []]
  {
    hide Smooth, Layered, Foreign, SameChains;
    run := new IPTables(false, map[]);
    ok := run.RedirectTo(protocol, port, destination);
    run.script := [true, false];
    ok := run.Clear();
  }

  // A chain that is lost: it was there at first, empty and unused, and Clear deletes it.
  method LostChain() returns (run: IPTables, ok: bool)
    ensures fresh(run) && ok && run.base == map[CHAOS := []] && run.tables == map[]
  {
    run := new IPTables(false, map[CHAOS := []]);
    ok := run.Clear();
    assert Unused(run.base);
  }

  datatype Operation =
    | Conntrack
    | Redirect(protocol: string, port: string, destination: string)
    | Jump(protocol: string, port: string, cgroupPath: string, cgroupClassId: string, injectorPodIp: string)
    | MarkPath(cgroupPath: string, mark: string)
    | MarkClass(classId: string, mark: string)
    | ClearAll

  const CONNTRACK: Rulespec := ["-m", "state", "--state", "new,established", "-j", "LOG"]

  function MarkSpec(option: string, value: string, mark: string): Rulespec {
    ["-m", "cgroup", option, value, "-j", "MARK", "--set-mark", mark]
  }

  function RedirectSpec(protocol: string, port: string, destination: string): Rulespec {
    ["-p", protocol, "--dport", port, "-j", "DNAT", "--to-destination", destination]
  }

  function InterceptSpec(protocol: string, port: string, cgroupPath: string, cgroupClassId: string,
                         injectorPodIp: string): Rulespec
  {
    (if protocol != "" then ["-p", protocol] else [])
    + (if port != "" then ["--dport", port] else [])
    + (if injectorPodIp != "" then ["!", "-s", injectorPodIp] else [])
    + (if cgroupPath != "" then ["-m", "cgroup", "--path", cgroupPath] else [])
    + (if cgroupClassId != "" then ["-m", "cgroup", "--cgroup", cgroupClassId] else [])
    + ["-j", CHAOS_CHAIN]
  }
}
