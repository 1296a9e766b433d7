// Memory stress (injector/memory_stress.go): how much is allocated, in which chunks, and what Clean releases.
// Failures of mmap and munmap and exit signals are read off scripts that are left arbitrary.
module MemoryStress {
  import opened DisruptionTypes
  import opened Text

  const INT64_RANGE := 0x1_0000_0000_0000_0000
  const V1_UNLIMITED := 0x10_0000_0000_0000   // 4 PiB
  const SECOND := 1_000_000_000

  /* ---------- the target ---------- */

  // 64-bit two's complement.
  function Wrap(x: int): int {
    (x + INT64_LIMIT) % INT64_RANGE - INT64_LIMIT
  }

  // Division that truncates towards zero.
  function Quotient(x: int, d: int): int
    requires d > 0
  {
    if x >= 0 then x / d else -(-x / d)
  }

  predicate Int64(x: int) {
    -INT64_LIMIT <= x < INT64_LIMIT
  }

  function TargetBytes(limit: int, percent: int, usage: int): int {
    Wrap(Quotient(Wrap(limit * percent), 100) - usage)
  }

  // memory.max of cgroup v2, memory.limit_in_bytes of cgroup v1.
  function ReadLimit(v2: bool, content: string): Option<int> {
    var text := TrimSpace(content);
    if v2 && text == "max" then None else
      var limit := Atoi(text);
      if !v2 && limit.Some? && limit.value >= V1_UNLIMITED then None else limit
  }

  lemma WrapFits(x: int)
    ensures Wrap(x) == x <==> Int64(x)
  {
  }

  // For a product that does not fit, the wrapped one is off by at least the range.
  lemma WrapOff(x: int)
    requires x >= INT64_LIMIT
    ensures Wrap(x) <= x - INT64_RANGE
  {
    var y := x + INT64_LIMIT;
    assert y >= INT64_RANGE;
    assert y == y / INT64_RANGE * INT64_RANGE + y % INT64_RANGE;
    assert y / INT64_RANGE >= 1;
  }

  // The target is the wanted share of the limit minus the usage, exactly when the product fits in 64 bits.
  lemma TargetIsExact(limit: int, percent: int, usage: int)
    requires 0 <= limit && Int64(limit) && 0 <= percent <= 100 && 0 <= usage && Int64(usage)
    ensures TargetBytes(limit, percent, usage) == limit * percent / 100 - usage <==> limit * percent < INT64_LIMIT
  {
    var x := limit * percent;
    assert 0 <= x <= limit * 100 by {
      assert limit * percent <= limit * 100;
    }
    if x < INT64_LIMIT {
      WrapFits(x);
      WrapFits(x / 100 - usage);
    } else {
      WrapOff(x);
      OverflowDiffers(x, usage);
    }
  }

  lemma OverflowDiffers(x: int, usage: int)
    requires INT64_LIMIT <= x <= 100 * INT64_LIMIT && 0 <= usage && Int64(usage) && Wrap(x) <= x - INT64_RANGE
    ensures Wrap(Quotient(Wrap(x), 100) - usage) != x / 100 - usage
  {
    var q, e := Quotient(Wrap(x), 100), x / 100;
    assert -INT64_LIMIT <= Wrap(x) < INT64_LIMIT;
    assert q < e && e - q < INT64_RANGE by {
      assert q <= (x - INT64_RANGE) / 100 + 1;
      assert (x - INT64_RANGE) / 100 + 1 < x / 100;
    }
    Congruent(q - usage, e - usage);
  }

  // Numbers closer than the range wrap to different values.
  lemma Congruent(a: int, b: int)
    requires a < b < a + INT64_RANGE
    ensures Wrap(a) != b
  {
    var y := a + INT64_LIMIT;
    assert y == y / INT64_RANGE * INT64_RANGE + y % INT64_RANGE;
    assert Wrap(a) == a - y / INT64_RANGE * INT64_RANGE;
    if y / INT64_RANGE <= -1 {
      assert y / INT64_RANGE * INT64_RANGE <= -INT64_RANGE;
    } else if y / INT64_RANGE >= 1 {
      assert y / INT64_RANGE * INT64_RANGE >= INT64_RANGE;
    }
  }

  // A limit read from cgroup v1 never overflows.
  lemma V1Fits(content: string, percent: int)
    requires ReadLimit(false, content).Some? && ReadLimit(false, content).value >= 0 && 0 <= percent <= 100
    ensures ReadLimit(false, content).value * percent < INT64_LIMIT
  {
    var limit := ReadLimit(false, content).value;
    assert limit * percent <= limit * 100;
  }

  // A cgroup v2 limit can: 4 EiB wraps to nothing.
  lemma V2Overflows()
    ensures TargetBytes(0x4000_0000_0000_0000, 100, 0) == 0
  {
  }

  /* ---------- the plan ---------- */

  function Sum(s: seq<int>): int {
    if s == [] then 0 else Sum(s[..|s| - 1]) + s[|s| - 1]
  }

  function Steps(target: int, ramp: int): int {
    var steps := if ramp > 0 then Max(ramp / SECOND, 1) else 1;
    if Quotient(target, steps) <= 0 then 1 else steps
  }

  function ChunkSize(target: int, ramp: int): int {
    Quotient(target, Steps(target, ramp))
  }

  // The sizes allocated by a ramp that is neither stopped nor fails.
  function Plan(target: int, ramp: int): seq<int> {
    var steps, chunk := Steps(target, ramp), ChunkSize(target, ramp);
    seq(steps, i requires 0 <= i < steps => if i == steps - 1 then target - chunk * i else chunk)
  }

  lemma ChunkFits(target: int, ramp: int)
    requires target > 0
    ensures var steps, chunk := Steps(target, ramp), ChunkSize(target, ramp);
      steps >= 1 && chunk >= 1 && chunk * steps <= target
  {
    var steps, chunk := Steps(target, ramp), ChunkSize(target, ramp);
    assert chunk == target / steps;
    assert target == target / steps * steps + target % steps;
  }

  lemma {:induction false} PrefixSum(target: int, ramp: int, n: nat)
    requires target > 0 && n < Steps(target, ramp)
    ensures Sum(Plan(target, ramp)[..n]) == ChunkSize(target, ramp) * n
  {
    var plan, chunk := Plan(target, ramp), ChunkSize(target, ramp);
    if n > 0 {
      PrefixSum(target, ramp, n - 1);
      assert plan[..n][..n - 1] == plan[..n - 1];
      assert chunk * n == chunk * (n - 1) + chunk;
    }
  }

  // The chunks are positive, add up to the target, and never exceed it on the way.
  lemma PlanAddsUp(target: int, ramp: int)
    requires target > 0
    ensures var plan := Plan(target, ramp);
      && Sum(plan) == target
      && (forall i :: 0 <= i < |plan| ==> plan[i] > 0)
      && (forall n :: 0 <= n <= |plan| ==> 0 <= Sum(plan[..n]) <= target)
  {
    hide Plan, Steps, ChunkSize;
    var plan, steps, chunk := Plan(target, ramp), Steps(target, ramp), ChunkSize(target, ramp);
    ChunkFits(target, ramp);
    PlanShape(target, ramp);
    PrefixSum(target, ramp, steps - 1);
    assert chunk * steps == chunk * (steps - 1) + chunk;
    assert plan[..|plan|] == plan;
    forall n | 0 <= n <= |plan| ensures 0 <= Sum(plan[..n]) <= target {
      if n < |plan| {
        PrefixSum(target, ramp, n);
        Monotone(chunk, n, steps);
      }
    }
  }

  lemma Monotone(chunk: int, n: nat, steps: int)
    requires chunk >= 0 && n <= steps
    ensures 0 <= chunk * n <= chunk * steps
  {
  }

  /* ---------- the injector ---------- */

  datatype Block = Block(id: nat, size: int)

  function Sizes(blocks: seq<Block>): seq<int> {
    seq(|blocks|, i requires 0 <= i < |blocks| => blocks[i].size)
  }

  ghost function Ids(blocks: seq<Block>): set<nat> {
    set b | b in blocks :: b.id
  }

  // The recorded chunks were mapped on top of what was there.
  ghost predicate Extended(was: map<nat, int>, mapped: map<nat, int>, blocks: seq<Block>) {
    && mapped.Keys == was.Keys + Ids(blocks) && was.Keys !! Ids(blocks)
    && forall id :: id in was ==> mapped[id] == was[id]
  }

  lemma NothingYet(was: map<nat, int>)
    ensures Extended(was, was, []) && Sizes([]) == []
  {
  }

  lemma OneMore(was: map<nat, int>, mapped: map<nat, int>, blocks: seq<Block>, b: Block, plan: seq<int>, i: nat)
    requires Extended(was, mapped, blocks) && b.id !in mapped
    requires i < |plan| && Sizes(blocks) == plan[..i] && plan[i] == b.size
    ensures Extended(was, mapped[b.id := b.size], blocks + [b]) && Sizes(blocks + [b]) == plan[..i + 1]
  {
    IdsSnoc(blocks, b);
    assert Sizes(blocks + [b]) == Sizes(blocks) + [b.size];
    assert plan[..i + 1] == plan[..i] + [plan[i]];
  }

  class Injector {
    const dryRun: bool
    const percent: int
    const ramp: int               // in nanoseconds
    var allocations: seq<Block>
    var mapped: map<nat, int>     // every mapping of the process, with its size
    var nextId: nat
    var maps: seq<bool>           // whether the coming mmap calls succeed
    var unmaps: seq<bool>         // and the coming munmap calls
    var exits: seq<bool>          // whether an exit signal is there at the coming polls

    // The recorded chunks are distinct live mappings.
    ghost predicate Valid()
      reads this
    {
      && (forall id :: id in mapped ==> id < nextId)
      && (forall b :: b in allocations ==> b.id in mapped && mapped[b.id] == b.size)
      && (forall i, j :: 0 <= i < j < |allocations| ==> allocations[i].id != allocations[j].id)
    }

    constructor (dryRun: bool, percent: int, ramp: int)
      ensures Valid() && this.dryRun == dryRun && this.percent == percent && this.ramp == ramp
      ensures allocations == [] && mapped == map[]
    {
      this.dryRun, this.percent, this.ramp := dryRun, percent, ramp;
      allocations, mapped, nextId, maps, unmaps, exits := [], map[], 0, [], [], [];
    }

    method Exiting() returns (exit: bool)
      requires Valid()
      modifies this`exits
      ensures Valid()
      ensures old(exits) == [] ==> !exit && exits == []
    {
      exit := false;
      if exits != [] {
        exit, exits := exits[0], exits[1..];
      }
    }

    // mmapAnonymous, recorded when it succeeds.
    method Allocate(size: int) returns (ok: bool)
      requires Valid()
      modifies this`allocations, this`mapped, this`nextId, this`maps
      ensures Valid()
      ensures ok ==>
        allocations == old(allocations) + [Block(old(nextId), size)] && mapped == old(mapped)[old(nextId) := size]
      ensures ok ==> old(nextId) !in old(mapped) && nextId > old(nextId)
      ensures !ok ==> allocations == old(allocations) && mapped == old(mapped)
      ensures old(maps) == [] ==> ok && maps == []
    {
      ok := true;
      if maps != [] {
        ok, maps := maps[0], maps[1..];
      }
      if ok {
        mapped := mapped[nextId := size];
        allocations := allocations + [Block(nextId, size)];
        nextId := nextId + 1;
      }
    }

    // stress: however it ends, what was allocated is the beginning of the plan; the whole plan if nothing stopped it.
    method Ramp(target: int)
      requires Valid() && allocations == [] && target > 0
      modifies this`allocations, this`mapped, this`nextId, this`maps, this`exits
      ensures Valid()
      ensures Sizes(allocations) <= Plan(target, ramp) && 0 <= Sum(Sizes(allocations)) <= target
      ensures dryRun ==> allocations == []
      ensures !dryRun && old(maps) == old(exits) == [] ==>
        Sizes(allocations) == Plan(target, ramp) && Sum(Sizes(allocations)) == target
      ensures Extended(old(mapped), mapped, allocations)
    {
      hide Plan, Sum, Extended, Sizes, Valid;
      PlanShape(target, ramp);
      var steps := if ramp > 0 then Max(ramp / SECOND, 1) else 1;
      var chunk := Quotient(target, steps);
      if chunk <= 0 {
        chunk, steps := target, 1;
      }
      assert steps == Steps(target, ramp) && chunk == ChunkSize(target, ramp);
      var i, stopped := 0, dryRun;
      NothingYet(mapped);
      while i < steps && !stopped
        invariant 0 <= i <= steps && Valid() && |allocations| == i
        invariant Sizes(allocations) == Plan(target, ramp)[..i]
        invariant dryRun ==> i == 0
        invariant !dryRun && old(maps) == old(exits) == [] ==> maps == exits == [] && !stopped
        invariant Extended(old(mapped), mapped, allocations)
        decreases steps - i, !stopped
      {
        stopped := Exiting();
        if !stopped {
          var size := if i == steps - 1 then target - chunk * i else chunk;
          ghost var before, was := allocations, mapped;
          var ok := Allocate(size);
          stopped := !ok;
          if ok {
            OneMore(old(mapped), was, before, allocations[|before|], Plan(target, ramp), i);
            i := i + 1;
            if ramp > 0 && i < steps {
              stopped := Exiting();
            }
          }
        }
      }
      PrefixAdds(allocations, target, ramp);
    }

    // Inject, then the goroutine it starts; None stands for a file that could not be read.
    method Inject(joined: bool, v2: bool, limit: Option<string>, usage: Option<string>) returns (ok: bool)
      requires Valid()
      modifies this`allocations, this`mapped, this`nextId, this`maps, this`exits
      ensures Valid()
      ensures ok <==>
        && old(allocations) == [] && joined && limit.Some? && usage.Some?
        && ReadLimit(v2, limit.value).Some? && Atoi(TrimSpace(usage.value)).Some?
      ensures !ok ==> allocations == old(allocations) && mapped == old(mapped)
      ensures ok ==>
        var target := TargetBytes(ReadLimit(v2, limit.value).value, percent, Atoi(TrimSpace(usage.value)).value);
        if target <= 0 then allocations == [] && mapped == old(mapped)
        else
          && Sizes(allocations) <= Plan(target, ramp) && Sum(Sizes(allocations)) <= target
          && (!dryRun && old(maps) == old(exits) == [] ==> Sizes(allocations) == Plan(target, ramp))
      ensures ok ==> Extended(old(mapped), mapped, allocations)
    {
      hide Plan, Sum, TargetBytes, ReadLimit, Atoi, TrimSpace;
      if allocations != [] || !joined || limit.None? || usage.None? {
        return false;
      }
      var max, current := ReadLimit(v2, limit.value), Atoi(TrimSpace(usage.value));
      if max.None? || current.None? {
        return false;
      }
      ok := true;
      var target := TargetBytes(max.value, percent, current.value);
      if target > 0 {
        Ramp(target);
      }
    }

    // Clean: every recorded chunk is unmapped, unless munmap fails, and nothing else is.
    method Clean()
      requires Valid()
      modifies this`allocations, this`mapped, this`unmaps
      ensures Valid() && allocations == []
      ensures mapped.Keys <= old(mapped.Keys) && old(mapped.Keys) - mapped.Keys <= Ids(old(allocations))
      ensures forall id :: id in mapped ==> mapped[id] == old(mapped)[id]
      ensures old(unmaps) == [] ==> mapped == old(mapped) - Ids(old(allocations))
    {
      var blocks := allocations;
      for n := 0 to |blocks|
        invariant allocations == blocks && mapped.Keys <= old(mapped.Keys)
        invariant old(mapped.Keys) - mapped.Keys <= Ids(blocks[..n])
        invariant forall id :: id in mapped ==> mapped[id] == old(mapped)[id]
        invariant old(unmaps) == [] ==> unmaps == [] && mapped.Keys == old(mapped.Keys) - Ids(blocks[..n])
      {
        var ok := true;
        if unmaps != [] {
          ok, unmaps := unmaps[0], unmaps[1..];
        }
        if ok {
          mapped := mapped - {blocks[n].id};
        }
        IdsSnoc(blocks[..n], blocks[n]);
        assert blocks[..n + 1] == blocks[..n] + [blocks[n]];
      }
      assert blocks[..|blocks|] == blocks;
      allocations := [];
    }

    // An injection that is cleaned gives back all the memory it took, if munmap does not fail.
    method InjectThenClean(joined: bool, v2: bool, limit: Option<string>, usage: Option<string>) returns (ok: bool)
      requires Valid() && allocations == [] && unmaps == []
      modifies this
      ensures mapped == old(mapped) && allocations == []
    {
      ok := Inject(joined, v2, limit, usage);
      Clean();
    }
  }

  lemma IdsSnoc(blocks: seq<Block>, b: Block)
    ensures Ids(blocks + [b]) == Ids(blocks) + {b.id}
  {
    assert forall x :: x in blocks + [b] <==> x in blocks || x == b;
  }

  lemma PlanShape(target: int, ramp: int)
    requires target > 0
    ensures |Plan(target, ramp)| == Steps(target, ramp)
    ensures forall i :: 0 <= i < Steps(target, ramp) ==>
      Plan(target, ramp)[i] ==
        if i == Steps(target, ramp) - 1 then target - ChunkSize(target, ramp) * i else ChunkSize(target, ramp)
  {
    ChunkFits(target, ramp);
  }

  // A beginning of the plan stays within the target.
  lemma PrefixAdds(blocks: seq<Block>, target: int, ramp: int)
    requires target > 0 && Sizes(blocks) <= Plan(target, ramp)
    ensures 0 <= Sum(Sizes(blocks)) <= target
    ensures |blocks| == |Plan(target, ramp)| ==> Sizes(blocks) == Plan(target, ramp) && Sum(Sizes(blocks)) == target
  {
    hide Plan, Sum;
    PlanAddsUp(target, ramp);
    assert Sizes(blocks) == Plan(target, ramp)[..|blocks|];
    assert Plan(target, ramp)[..|Plan(target, ramp)|] == Plan(target, ramp);
  }
}
