// Values shared by the controllers: a Disruption resource as far as target selection
// and pod life cycle are concerned (api/v1beta1/disruption_types.go).
module DisruptionTypes {

  datatype Option<+T> = None | Some(value: T)

  type Kind = string
  type Target = string

  const NODE_FAILURE: Kind := "node-failure"

  datatype InjectionStatus = NotInjected | Injected | StuckOnRemoval

  // Status.TargetInjections: the chosen targets, each with one entry per disruption kind.
  type TargetInjections = map<Target, map<Kind, InjectionStatus>>

  datatype Level = PodLevel | NodeLevel

  // spec.count: a number, a percentage, or a string that is neither; the fallback is what
  // IntValue() makes of the latter.
  datatype Count = Absolute(n: int) | Percentage(p: int) | Unscalable(fallback: int)

  datatype Spec = Spec(
    level: Level,
    kinds: seq<Kind>,
    count: Count,
    staticTargeting: bool,
    allowDisruptedTargets: bool,
    maxRuns: Option<int>,
    createPodsAt: int,
    endsAt: int)

  datatype Status = Status(
    targetInjections: TargetInjections,
    cleanedAt: Option<int>,
    isStuckOnRemoval: bool,
    runCount: int,
    desiredTargetsCount: int,
    selectedTargetsCount: int,
    ignoredTargetsCount: int)

  function Min(a: int, b: int): int {
    if a < b then a else b
  }

  function Max(a: int, b: int): int {
    if a < b then b else a
  }

  // The elements of a sequence, as a set.
  function Elements<T(==)>(s: seq<T>): set<T> {
    set x | x in s
  }

  ghost predicate Distinct<T>(s: seq<T>) {
    forall i, j :: 0 <= i < j < |s| ==> s[i] != s[j]
  }

  lemma ElementsSnoc<T>(s: seq<T>, x: T)
    ensures Elements(s + [x]) == Elements(s) + {x}
  {
  }

  lemma EmptyWithoutElements<T(!new)>(s: seq<T>)
    requires forall x :: x !in s
    ensures s == []
  {
    assert forall x :: x in multiset(s) ==> x in s;
    assert |s| == |multiset(s)|;
  }

  lemma DistinctSnoc<T>(s: seq<T>, x: T)
    requires Distinct(s + [x])
    ensures Distinct(s) && x !in s
  {
    assert forall i :: 0 <= i < |s| ==> (s + [x])[i] == s[i];
    assert (s + [x])[|s|] == x;
  }

  lemma {:induction false} DistinctCount<T>(s: seq<T>)
    requires Distinct(s)
    ensures |Elements(s)| == |s|
  {
    if s != [] {
      var rest, last := s[..|s| - 1], s[|s| - 1];
      DistinctCount(rest);
      ElementsSnoc(rest, last);
      assert s == rest + [last] && last !in Elements(rest);
    }
  }

  // A sequence is as long as its set of elements only when nothing is repeated.
  lemma {:induction false} CountBounded<T>(s: seq<T>)
    ensures |Elements(s)| <= |s|
    ensures |Elements(s)| == |s| ==> Distinct(s)
  {
    if s != [] {
      var rest, last := s[..|s| - 1], s[|s| - 1];
      CountBounded(rest);
      ElementsSnoc(rest, last);
      assert s == rest + [last];
      if |Elements(s)| == |s| {
        assert last !in Elements(rest) && |Elements(rest)| == |rest|;
      }
    }
  }

  lemma SubsetCount<T>(a: set<T>, b: set<T>)
    requires a <= b
    ensures |a| <= |b|
    ensures |a| == |b| ==> a == b
  {
    if a != {} {
      var x :| x in a;
      SubsetCount(a - {x}, b - {x});
    }
  }

  function RemoveAt<T>(s: seq<T>, j: nat): seq<T>
    requires j < |s|
  {
    s[..j] + s[j + 1..]
  }

  lemma RemoveAtIndex<T>(s: seq<T>, j: nat)
    requires j < |s|
    ensures |RemoveAt(s, j)| == |s| - 1
    ensures forall k :: 0 <= k < |s| - 1 ==> RemoveAt(s, j)[k] == s[if k < j then k else k + 1]
  {
  }

  lemma RemoveAtMultiset<T>(s: seq<T>, j: nat)
    requires j < |s|
    ensures multiset(s) == multiset(RemoveAt(s, j)) + multiset{s[j]}
  {
    assert s == s[..j] + [s[j]] + s[j + 1..];
  }

  lemma DisjointCount<T>(whole: set<T>, a: set<T>, b: set<T>)
    requires whole == a + b && a !! b
    ensures |whole| == |a| + |b|
  {
  }

  // Walking a Go map: its keys in some order.
  method AnyOrder<T>(s: set<T>) returns (q: seq<T>)
    ensures Distinct(q) && Elements(q) == s && |q| == |s|
  {
    q := [];
    var rest := s;
    while rest != {}
      invariant rest <= s && Elements(q) == s - rest && Distinct(q)
      decreases |rest|
    {
      var x :| x in rest;
      assert x !in Elements(q);
      ElementsSnoc(q, x);
      q, rest := q + [x], rest - {x};
    }
    DistinctCount(q);
  }

  lemma KeysAfter<K, V>(m: map<K, V>, k: K, v: V)
    ensures m[k := v].Keys == m.Keys + {k}
  {
  }

  // One more element done.
  lemma OneLess<T>(all: set<T>, todo: set<T>, x: T)
    requires todo <= all && x in todo
    ensures all - (todo - {x}) == (all - todo) + {x} && x in all && x !in all - todo
    ensures |all - (todo - {x})| == |all - todo| + 1
  {
    assert all - (todo - {x}) == (all - todo) + {x};
  }
}
