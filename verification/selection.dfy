// Choice of a percentage of IPs by hash order (network/selection.go). The hash, which also depends on a
// fixed seed, is left open.
module Selection {
  import opened DisruptionTypes

  datatype Hashed<T> = Hashed(ip: T, hash: nat)

  // math.Ceil(n * percentage / 100)
  function CountFor(n: nat, percentage: nat): nat {
    (n * percentage + 99) / 100
  }

  ghost predicate SortedByHash<T>(s: seq<Hashed<T>>) {
    forall i, j :: 0 <= i < j < |s| ==> s[i].hash <= s[j].hash
  }

  function Insert<T>(x: Hashed<T>, s: seq<Hashed<T>>): (r: seq<Hashed<T>>)
    requires SortedByHash(s)
    ensures |r| == |s| + 1 && SortedByHash(r)
    ensures r[0].hash == if s == [] || x.hash <= s[0].hash then x.hash else s[0].hash
  {
    if s == [] || x.hash <= s[0].hash then [x] + s else [s[0]] + Insert(x, s[1..])
  }

  lemma {:induction false} InsertAdds<T>(x: Hashed<T>, s: seq<Hashed<T>>)
    requires SortedByHash(s)
    ensures multiset(Insert(x, s)) == multiset(s) + multiset{x}
  {
    if s != [] && x.hash > s[0].hash {
      InsertAdds(x, s[1..]);
      RemoveAtMultiset(s, 0);
      assert RemoveAt(s, 0) == s[1..];
    }
  }

  function Sort<T>(s: seq<Hashed<T>>): (r: seq<Hashed<T>>)
    ensures SortedByHash(r) && |r| == |s|
  {
    if s == [] then [] else Insert(s[0], Sort(s[1..]))
  }

  lemma {:induction false} SortRearranges<T>(s: seq<Hashed<T>>)
    ensures multiset(Sort(s)) == multiset(s)
  {
    if s != [] {
      SortRearranges(s[1..]);
      InsertAdds(s[0], Sort(s[1..]));
      RemoveAtMultiset(s, 0);
      assert RemoveAt(s, 0) == s[1..];
    }
  }

  // sort.Slice on the hashes: the order of equal hashes is not promised.
  method SortSlice<T>(a: array<Hashed<T>>)
    modifies a
    ensures SortedByHash(a[..]) && multiset(a[..]) == multiset(old(a[..]))
  {
    var s := Sort(a[..]);
    SortRearranges(a[..]);
    for i := 0 to a.Length
      invariant forall j :: 0 <= j < i ==> a[j] == s[j]
    {
      a[i] := s[i];
    }
    assert a[..] == s;
  }

  ghost predicate DistinctHashes<T(!new)>(s: set<T>, hash: T -> nat) {
    forall x, y :: x in s && y in s && hash(x) == hash(y) ==> x == y
  }

  // How many elements hash below x.
  ghost function Rank<T(!new)>(s: set<T>, hash: T -> nat, x: T): nat {
    |set y | y in s && hash(y) < hash(x)|
  }

  // The `count` elements of least hash.
  ghost function Least<T(!new)>(s: set<T>, hash: T -> nat, count: nat): set<T> {
    set x | x in s && Rank(s, hash, x) < count
  }

  // Whether the whole list is returned as it is.
  predicate KeepsAll(n: nat, percentage: int) {
    percentage <= 0 || percentage >= 100 || CountFor(n, percentage) >= n
  }

  // The set promised for a list without repetitions.
  ghost function Share<T(!new)>(s: set<T>, hash: T -> nat, percentage: int): set<T> {
    if KeepsAll(|s|, percentage) then s else Least(s, hash, CountFor(|s|, percentage))
  }

  // Taken from the list, in hash order, and nothing left out hashes below what is taken.
  ghost predicate LeastFirst<T(!new)>(ips: seq<T>, hash: T -> nat, result: seq<T>) {
    && Elements(result) <= Elements(ips)
    && (forall i, j :: 0 <= i < j < |result| ==> hash(result[i]) <= hash(result[j]))
    && (forall x, y :: x in result && y in ips && y !in result ==> hash(x) <= hash(y))
  }

  // What a selection returns: the list itself, or the promised number of its elements of least hash.
  ghost predicate Chosen<T(!new)>(ips: seq<T>, percentage: int, hash: T -> nat, result: seq<T>) {
    && (Distinct(ips) ==> Distinct(result))
    && if KeepsAll(|ips|, percentage) then result == ips
       else |result| == CountFor(|ips|, percentage) < |ips| && LeastFirst(ips, hash, result)
  }

  method SelectByPercentage<T(!new)>(ips: seq<T>, percentage: int, hash: T -> nat) returns (result: seq<T>)
    ensures Chosen(ips, percentage, hash, result)
    ensures Distinct(ips) && DistinctHashes(Elements(ips), hash) ==>
      Elements(result) == Share(Elements(ips), hash, percentage)
  {
    if percentage <= 0 || percentage > 100 || |ips| == 0 || percentage == 100 {
      if Distinct(ips) { DistinctCount(ips); }
      return ips;
    }
    var count := CountFor(|ips|, percentage);
    if count >= |ips| {
      if Distinct(ips) { DistinctCount(ips); }
      return ips;
    }
    var hashes := new Hashed<T>[|ips|](i requires 0 <= i < |ips| => Hashed(ips[i], hash(ips[i])));
    ghost var given := hashes[..];
    SortSlice(hashes);
    ghost var sorted := hashes[..];
    result := [];
    for i := 0 to count
      invariant |result| == i
      invariant forall j :: 0 <= j < i ==> result[j] == sorted[j].ip
      invariant hashes[..] == sorted
    {
      result := result + [hashes[i].ip];
    }
    PrefixIsShare(ips, hash, given, sorted, count, result);
    if Distinct(ips) { DistinctCount(ips); }
  }

  // A sorted rearrangement of the hashed list has its `count` least elements in front.
  lemma PrefixIsShare<T(!new)>(ips: seq<T>, hash: T -> nat, given: seq<Hashed<T>>, sorted: seq<Hashed<T>>, count: nat,
                               result: seq<T>)
    requires |given| == |ips| && forall i :: 0 <= i < |ips| ==> given[i] == Hashed(ips[i], hash(ips[i]))
    requires SortedByHash(sorted) && multiset(sorted) == multiset(given)
    requires |result| == count <= |sorted| && forall j :: 0 <= j < count ==> result[j] == sorted[j].ip
    ensures LeastFirst(ips, hash, result) && (Distinct(ips) ==> Distinct(result))
    ensures Distinct(ips) && DistinctHashes(Elements(ips), hash) ==>
      Elements(result) == Least(Elements(ips), hash, count)
  {
    var all := Unhash(ips, hash, given, sorted);
    assert result == all[..count];
    PrefixLeastFirst(ips, all, hash, count);
    if Distinct(ips) {
      DistinctCount(ips);
      CountBounded(all);
      if DistinctHashes(Elements(ips), hash) {
        LeastIsPrefix(all, hash, count);
      }
    }
  }

  lemma Unhash<T(!new)>(ips: seq<T>, hash: T -> nat, given: seq<Hashed<T>>, sorted: seq<Hashed<T>>)
    returns (all: seq<T>)
    requires |given| == |ips| && forall i :: 0 <= i < |ips| ==> given[i] == Hashed(ips[i], hash(ips[i]))
    requires SortedByHash(sorted) && multiset(sorted) == multiset(given)
    ensures |all| == |sorted| == |ips| && forall j :: 0 <= j < |all| ==> all[j] == sorted[j].ip
    ensures Elements(all) == Elements(ips)
    ensures forall a, b :: 0 <= a < b < |all| ==> hash(all[a]) <= hash(all[b])
  {
    assert |sorted| == |multiset(sorted)| == |multiset(given)| == |given|;
    all := seq(|sorted|, j requires 0 <= j < |sorted| => sorted[j].ip);
    forall j | 0 <= j < |sorted| ensures sorted[j].ip in ips && sorted[j].hash == hash(sorted[j].ip) {
      assert sorted[j] in multiset(sorted);
      assert sorted[j] in given;
    }
    forall x | x in ips ensures x in all {
      var i :| 0 <= i < |ips| && ips[i] == x;
      assert given[i] in multiset(given);
      assert given[i] in sorted;
      var j :| 0 <= j < |sorted| && sorted[j] == given[i];
      assert all[j] == x;
    }
    assert forall x :: x in all ==> x in ips;
  }

  lemma PrefixLeastFirst<T(!new)>(ips: seq<T>, all: seq<T>, hash: T -> nat, count: nat)
    requires count <= |all| && Elements(all) == Elements(ips)
    requires forall a, b :: 0 <= a < b < |all| ==> hash(all[a]) <= hash(all[b])
    ensures LeastFirst(ips, hash, all[..count])
  {
    forall x, y | x in all[..count] && y in ips && y !in all[..count] ensures hash(x) <= hash(y) {
      assert y in Elements(all);
      var i :| 0 <= i < count && all[i] == x;
      var j :| 0 <= j < |all| && all[j] == y;
      assert all[..count][i] == x && j >= count;
    }
  }

  lemma LeastIsPrefix<T(!new)>(all: seq<T>, hash: T -> nat, count: nat)
    requires count <= |all| && Distinct(all) && DistinctHashes(Elements(all), hash)
    requires forall a, b :: 0 <= a < b < |all| ==> hash(all[a]) <= hash(all[b])
    ensures Elements(all[..count]) == Least(Elements(all), hash, count)
  {
    forall j | 0 <= j < |all| ensures Rank(Elements(all), hash, all[j]) == j {
      RankInSorted(all, hash, j);
    }
    forall x ensures x in Elements(all[..count]) <==> x in Least(Elements(all), hash, count) {
      if x in Elements(all) {
        var j :| 0 <= j < |all| && all[j] == x;
        assert j < count <==> x in all[..count];
      }
    }
  }

  lemma RankInSorted<T(!new)>(all: seq<T>, hash: T -> nat, j: nat)
    requires j < |all| && Distinct(all) && DistinctHashes(Elements(all), hash)
    requires forall a, b :: 0 <= a < b < |all| ==> hash(all[a]) <= hash(all[b])
    ensures Rank(Elements(all), hash, all[j]) == j
  {
    var below := set y | y in Elements(all) && hash(y) < hash(all[j]);
    forall k | 0 <= k < |all| ensures all[k] in below <==> k < j {
      assert all[k] in Elements(all) && all[j] in Elements(all);
    }
    assert below == Elements(all[..j]);
    DistinctCount(all[..j]);
  }

  /* ---------- stability of the choice ---------- */

  lemma CountGrows(n: nat, n': nat, p: nat, p': nat)
    requires n <= n' && p <= p'
    ensures CountFor(n, p) <= CountFor(n', p')
  {
    assert n * p <= n' * p' by {
      assert n * p <= n' * p;
      assert n' * p <= n' * p';
    }
  }

  // Selections from a list and from any rearrangement of it pick the same elements.
  lemma OrderDoesNotMatter<T(!new)>(a: seq<T>, b: seq<T>, percentage: int, hash: T -> nat, fromA: seq<T>, fromB: seq<T>)
    requires multiset(a) == multiset(b) && Distinct(a) && Distinct(b) && DistinctHashes(Elements(a), hash)
    requires Chosen(a, percentage, hash, fromA) && Chosen(b, percentage, hash, fromB)
    ensures Elements(fromA) == Elements(fromB)
  {
    assert |a| == |multiset(a)| == |b|;
    forall x ensures x in a <==> x in b {
      assert x in a <==> x in multiset(a);
      assert x in b <==> x in multiset(b);
    }
    if !KeepsAll(|a|, percentage) {
      PickedByBoth(a, hash, fromA, fromB);
      PickedByBoth(a, hash, fromB, fromA);
    }
  }

  // Two selections of the same size: what one picks the other does too.
  lemma PickedByBoth<T(!new)>(ips: seq<T>, hash: T -> nat, one: seq<T>, other: seq<T>)
    requires DistinctHashes(Elements(ips), hash) && LeastFirst(ips, hash, one) && |one| == |other|
    requires Distinct(one) && Distinct(other) && Elements(other) <= Elements(ips)
    requires forall x, y :: x in other && y in ips && y !in other ==> hash(x) <= hash(y)
    ensures Elements(one) <= Elements(other)
  {
    DistinctCount(one);
    DistinctCount(other);
    if x :| x in Elements(one) && x !in Elements(other) {
      assert Elements(other) <= Elements(one);
      SubsetCount(Elements(other), Elements(one));
    }
  }

  lemma {:induction false} LeastSize<T(!new)>(s: set<T>, hash: T -> nat, count: nat)
    requires DistinctHashes(s, hash) && count <= |s|
    ensures |Least(s, hash, count)| == count
    decreases |s|
  {
    if s != {} {
      var top := Topmost(s, hash);
      var rest := s - {top};
      RanksWithoutTop(s, hash, top);
      if count < |s| {
        LeastSize(rest, hash, count);
        assert Least(s, hash, count) == Least(rest, hash, count);
      } else {
        forall x | x in s ensures Rank(s, hash, x) < count {
          RankBelowSize(s, hash, x);
        }
        assert Least(s, hash, count) == s;
      }
    }
  }

  lemma RanksWithoutTop<T(!new)>(s: set<T>, hash: T -> nat, top: T)
    requires DistinctHashes(s, hash) && top in s && forall y :: y in s ==> hash(y) <= hash(top)
    ensures Rank(s, hash, top) == |s| - 1
    ensures forall x :: x in s - {top} ==> Rank(s - {top}, hash, x) == Rank(s, hash, x)
  {
    assert (set y | y in s && hash(y) < hash(top)) == s - {top};
    forall x | x in s - {top} ensures Rank(s - {top}, hash, x) == Rank(s, hash, x) {
      assert (set y | y in s - {top} && hash(y) < hash(x)) == (set y | y in s && hash(y) < hash(x));
    }
  }

  lemma {:induction false} Topmost<T(!new)>(s: set<T>, hash: T -> nat) returns (top: T)
    requires s != {}
    ensures top in s && forall y :: y in s ==> hash(y) <= hash(top)
    decreases |s|
  {
    top :| top in s;
    if s != {top} {
      var t := Topmost(s - {top}, hash);
      if hash(t) > hash(top) {
        top := t;
      }
    }
  }

  // Exactly ceil(n * p / 100) elements are chosen.
  lemma ShareSize<T(!new)>(s: set<T>, hash: T -> nat, percentage: int)
    requires DistinctHashes(s, hash) && 1 <= percentage <= 100
    ensures |Share(s, hash, percentage)| == CountFor(|s|, percentage)
  {
    if percentage == 100 {
      assert CountFor(|s|, 100) == |s|;
    } else {
      assert |s| * percentage <= |s| * 99;
      assert CountFor(|s|, percentage) <= |s|;
      if !KeepsAll(|s|, percentage) {
        LeastSize(s, hash, CountFor(|s|, percentage));
      }
    }
  }

  // A higher percentage only adds elements.
  lemma ShareGrows<T(!new)>(s: set<T>, hash: T -> nat, p: int, q: int)
    requires 1 <= p <= q <= 100
    ensures Share(s, hash, p) <= Share(s, hash, q)
  {
    CountGrows(|s|, |s|, p, q);
  }

  // One more IP evicts at most one of those chosen before.
  lemma AtMostOneEvicted<T(!new)>(s: set<T>, hash: T -> nat, percentage: int, z: T)
    requires z !in s && DistinctHashes(s + {z}, hash) && 1 <= percentage <= 100
    ensures |Share(s, hash, percentage) - Share(s + {z}, hash, percentage)| <= 1
  {
    var s' := s + {z};
    var c, c' := CountFor(|s|, percentage), CountFor(|s'|, percentage);
    CountGrows(|s|, |s'|, percentage, percentage);
    var evicted := Share(s, hash, percentage) - Share(s', hash, percentage);
    if evicted != {} {
      var x :| x in evicted;
      forall y | y in evicted ensures Rank(s, hash, y) == c - 1 {
        RankAfterOneMore(s, hash, z, y);
        if KeepsAll(|s|, percentage) {
          RankBelowSize(s, hash, y);
        }
      }
      forall y | y in evicted ensures y == x {
        if y != x {
          RankSeparates(s, hash, x, y);
        }
      }
      assert evicted == {x};
    }
  }

  lemma RankAfterOneMore<T(!new)>(s: set<T>, hash: T -> nat, z: T, y: T)
    ensures Rank(s, hash, y) <= Rank(s + {z}, hash, y) <= Rank(s, hash, y) + 1
  {
    var a := set x | x in s && hash(x) < hash(y);
    var b := set x | x in s + {z} && hash(x) < hash(y);
    SubsetCount(a, b);
    SubsetCount(b, a + {z});
  }

  lemma RankBelowSize<T(!new)>(s: set<T>, hash: T -> nat, y: T)
    requires y in s
    ensures Rank(s, hash, y) < |s|
  {
    SubsetCount((set x | x in s && hash(x) < hash(y)), s - {y});
  }

  lemma RankSeparates<T(!new)>(s: set<T>, hash: T -> nat, x: T, y: T)
    requires x in s && y in s && DistinctHashes(s, hash) && x != y
    ensures Rank(s, hash, x) != Rank(s, hash, y)
  {
    var lo, hi := if hash(x) < hash(y) then x else y, if hash(x) < hash(y) then y else x;
    var a := set u | u in s && hash(u) < hash(lo);
    var b := set u | u in s && hash(u) < hash(hi);
    assert lo in b && lo !in a;
    SubsetCount(a + {lo}, b);
  }
}
