// Linux CPU lists (cpuset/cpuset.go): Parse reads what String prints, and String prints the maximal runs.
module CpuSet {
  import opened DisruptionTypes
  import opened Text

  const MAX_CPU_ID := 8192
  const MAX_RANGE_SIZE := 8192

  datatype Range = Range(start: nat, end: nat)

  ghost function Span(start: nat, end: nat): (r: set<nat>)
    ensures forall c: nat :: c in r <==> start <= c <= end
    decreases end + 1 - start
  {
    if start > end then {} else {start} + Span(start + 1, end)
  }

  /* ---------- reading ---------- */

  // The CPUs one element of the list stands for.
  ghost function Meaning(r: string): Option<set<nat>> {
    var b := Split(r, '-');
    if r == "" then None
    else if |b| == 1 then
      var e := Atoi(b[0]);
      if e.Some? && 0 <= e.value < MAX_CPU_ID then Some({e.value as nat}) else None
    else if |b| == 2 && b[0] != "" && b[1] != "" then
      var start, end := Atoi(b[0]), Atoi(b[1]);
      if start.Some? && end.Some? && 0 <= start.value <= end.value < MAX_CPU_ID
      then Some(Span(start.value, end.value)) else None
    else None
  }

  // The union of the elements, if all of them mean something.
  ghost function MeaningAll(parts: seq<string>): Option<set<nat>> {
    if parts == [] then Some({}) else
      var n := |parts| - 1;
      var rest, last := MeaningAll(parts[..n]), Meaning(parts[n]);
      if rest.Some? && last.Some? then Some(rest.value + last.value) else None
  }

  ghost function ListMeaning(s: string): Option<set<nat>> {
    if s == "" then Some({}) else MeaningAll(Split(s, ','))
  }

  method ParseRange(r: string) returns (cpus: Option<set<nat>>)
    ensures cpus == Meaning(r)
  {
    if r == "" {
      return None;
    }
    var boundaries := Split(r, '-');
    if |boundaries| == 1 {
      var e := Atoi(boundaries[0]);
      if e.None? || e.value < 0 || e.value >= MAX_CPU_ID {
        return None;
      }
      return Some({e.value});
    }
    if |boundaries| > 2 || boundaries[0] == "" || boundaries[1] == "" {
      return None;
    }
    var start := Atoi(boundaries[0]);
    if start.None? || start.value < 0 || start.value >= MAX_CPU_ID {
      return None;
    }
    var end := Atoi(boundaries[1]);
    if end.None? || end.value < 0 || end.value >= MAX_CPU_ID || start.value > end.value {
      return None;
    }
    if end.value - start.value + 1 > MAX_RANGE_SIZE {
      return None;
    }
    var elems := {};
    for e := start.value to end.value + 1
      invariant elems == set c: nat | c in Span(start.value, end.value) && c < e
    {
      elems := elems + {e};
    }
    assert elems == Span(start.value, end.value);
    cpus := Some(elems);
  }

  method Parse(s: string) returns (cpus: Option<set<nat>>)
    ensures cpus == ListMeaning(s)
  {
    var elems := {};
    if s == "" {
      return Some(elems);
    }
    var ranges := Split(s, ',');
    for n := 0 to |ranges|
      invariant MeaningAll(ranges[..n]) == Some(elems)
    {
      assert ranges[..n + 1][..n] == ranges[..n];
      var r := ParseRange(ranges[n]);
      if r.None? {
        NoMeaning(ranges, n);
        return None;
      }
      elems := elems + r.value;
    }
    assert ranges[..|ranges|] == ranges;
    cpus := Some(elems);
  }

  // One bad element spoils the list.
  lemma {:induction false} NoMeaning(parts: seq<string>, n: nat)
    requires n < |parts| && Meaning(parts[n]).None?
    ensures MeaningAll(parts).None?
    decreases |parts|
  {
    if n < |parts| - 1 {
      NoMeaning(parts[..|parts| - 1], n);
    }
  }

  lemma MeaningBounded(r: string)
    ensures Meaning(r).Some? ==> forall c :: c in Meaning(r).value ==> c < MAX_CPU_ID
  {
  }

  // Whatever is accepted stays below the limit.
  lemma {:induction false} AcceptedIsBounded(parts: seq<string>)
    ensures MeaningAll(parts).Some? ==> forall c :: c in MeaningAll(parts).value ==> c < MAX_CPU_ID
  {
    if parts != [] {
      AcceptedIsBounded(parts[..|parts| - 1]);
      MeaningBounded(parts[|parts| - 1]);
    }
  }

  /* ---------- printing ---------- */

  ghost predicate Ascending(elems: seq<nat>) {
    forall i, j :: 0 <= i < j < |elems| ==> elems[i] < elems[j]
  }

  // The maximal runs of a set, in order.
  ghost predicate MaximalRuns(ranges: seq<Range>, cpus: set<nat>) {
    && (forall i :: 0 <= i < |ranges| ==> ranges[i].start <= ranges[i].end)
    && (forall i, j :: 0 <= i < j < |ranges| ==> ranges[i].end + 1 < ranges[j].start)
    && (forall c: nat :: c in cpus <==> InRanges(ranges, c))
  }

  ghost predicate InRanges(ranges: seq<Range>, c: nat) {
    exists i :: 0 <= i < |ranges| && ranges[i].start <= c <= ranges[i].end
  }

  function PrintRange(r: Range): string {
    if r.start == r.end then Itoa(r.start) else Itoa(r.start) + "-" + Itoa(r.end)
  }

  function PrintRanges(ranges: seq<Range>): seq<string> {
    seq(|ranges|, i requires 0 <= i < |ranges| => PrintRange(ranges[i]))
  }

  // Only one list of ranges consists of the maximal runs of a set.
  lemma {:induction false} RunsAreUnique(a: seq<Range>, b: seq<Range>, cpus: set<nat>)
    requires MaximalRuns(a, cpus) && MaximalRuns(b, cpus)
    ensures a == b
    decreases |a|
  {
    if a == [] {
      if b != [] {
        assert InRanges(b, b[0].start);
      }
    } else {
      assert InRanges(a, a[0].start) && InRanges(b, a[0].start);
      FirstRun(a, b, cpus);
      FirstRun(b, a, cpus);
      assert a[0] == b[0];
      var rest := cpus - Span(a[0].start, a[0].end);
      DropRun(a, cpus);
      DropRun(b, cpus);
      RunsAreUnique(a[1..], b[1..], rest);
    }
  }

  lemma FirstRun(a: seq<Range>, b: seq<Range>, cpus: set<nat>)
    requires MaximalRuns(a, cpus) && MaximalRuns(b, cpus) && a != [] && b != []
    ensures b[0].start <= a[0].start
    ensures b[0].start == a[0].start ==> b[0].end >= a[0].end
  {
    assert InRanges(a, a[0].start) && InRanges(b, a[0].start);
    var c := b[0].end + 1;
    assert !InRanges(b, c);
    assert InRanges(a, c) || c < a[0].start || c > a[0].end;
  }

  lemma DropRun(a: seq<Range>, cpus: set<nat>)
    requires MaximalRuns(a, cpus) && a != []
    ensures MaximalRuns(a[1..], cpus - Span(a[0].start, a[0].end))
  {
    forall c: nat ensures c in cpus - Span(a[0].start, a[0].end) <==> InRanges(a[1..], c) {
      if InRanges(a[1..], c) {
        var i :| 0 <= i < |a[1..]| && a[1..][i].start <= c <= a[1..][i].end;
        assert a[i + 1].start <= c <= a[i + 1].end && a[0].end < a[i + 1].start;
        assert InRanges(a, c);
      }
      if c in cpus && InRanges(a, c) && c !in Span(a[0].start, a[0].end) {
        var i :| 0 <= i < |a| && a[i].start <= c <= a[i].end;
        assert a[1..][i - 1] == a[i];
      }
    }
  }

  // ToSlice: the map is walked in any order, then sorted.
  method ToSlice(cpus: set<nat>) returns (elems: seq<nat>)
    ensures Ascending(elems) && Elements(elems) == cpus
  {
    elems := [];
    var todo := cpus;
    while todo != {}
      invariant Ascending(elems) && Elements(elems) + todo == cpus && Elements(elems) !! todo
      decreases todo
    {
      var c :| c in todo;
      todo := todo - {c};
      elems := Insert(elems, c);
    }
  }

  function Insert(elems: seq<nat>, c: nat): (r: seq<nat>)
    requires Ascending(elems) && c !in elems
    ensures Ascending(r) && |r| == |elems| + 1 && r[0] == (if elems == [] || c < elems[0] then c else elems[0])
    ensures forall x :: x in r <==> x in elems || x == c
  {
    if elems == [] || c < elems[0] then [c] + elems else
      assert forall x :: x in elems <==> x == elems[0] || x in elems[1..];
      [elems[0]] + Insert(elems[1..], c)
  }

  // The loop of String that gathers ranges.
  method Gather(elems: seq<nat>) returns (ranges: seq<Range>)
    requires Ascending(elems) && elems != []
    ensures MaximalRuns(ranges, Elements(elems)) && ranges != []
  {
    ranges := [Range(elems[0], elems[0])];
    GatherStart(elems[0]);
    assert elems[..1] == [elems[0]];
    for i := 1 to |elems|
      invariant ranges != [] && ranges[|ranges| - 1].end == elems[i - 1]
      invariant MaximalRuns(ranges, Elements(elems[..i]))
    {
      var n := |ranges| - 1;
      assert elems[..i + 1] == elems[..i] + [elems[i]];
      ElementsSnoc(elems[..i], elems[i]);
      if elems[i] == ranges[n].end + 1 {
        ExtendRun(ranges, Elements(elems[..i]), elems[i]);
        ranges := ranges[n := Range(ranges[n].start, elems[i])];
      } else {
        NewRun(ranges, Elements(elems[..i]), elems[i]);
        ranges := ranges + [Range(elems[i], elems[i])];
      }
    }
    assert elems[..|elems|] == elems;
  }

  lemma GatherStart(c: nat)
    ensures MaximalRuns([Range(c, c)], Elements([c]))
  {
    var ranges := [Range(c, c)];
    assert ranges[0].start == c;
    forall x: nat ensures x in Elements([c]) <==> InRanges(ranges, x) {
      assert x in Elements([c]) <==> x == c;
      assert ranges[0].start <= x <= ranges[0].end <==> x == c;
    }
  }

  lemma ExtendRun(ranges: seq<Range>, cpus: set<nat>, c: nat)
    requires MaximalRuns(ranges, cpus) && ranges != [] && c == ranges[|ranges| - 1].end + 1
    ensures MaximalRuns(ranges[|ranges| - 1 := Range(ranges[|ranges| - 1].start, c)], cpus + {c})
  {
    var n := |ranges| - 1;
    var r := ranges[n := Range(ranges[n].start, c)];
    forall x: nat ensures x in cpus + {c} <==> InRanges(r, x) {
      assert x == c ==> r[n].start <= x <= r[n].end;
      if InRanges(ranges, x) {
        var i :| 0 <= i < |ranges| && ranges[i].start <= x <= ranges[i].end;
        assert r[i].start <= x <= r[i].end;
      }
      if x != c && InRanges(r, x) {
        var i :| 0 <= i < |r| && r[i].start <= x <= r[i].end;
        assert ranges[i].start <= x <= ranges[i].end;
      }
    }
  }

  lemma NewRun(ranges: seq<Range>, cpus: set<nat>, c: nat)
    requires MaximalRuns(ranges, cpus) && ranges != [] && c > ranges[|ranges| - 1].end + 1
    ensures MaximalRuns(ranges + [Range(c, c)], cpus + {c})
  {
    var r := ranges + [Range(c, c)];
    forall x: nat ensures x in cpus + {c} <==> InRanges(r, x) {
      assert x == c ==> r[|ranges|].start <= x <= r[|ranges|].end;
      if InRanges(ranges, x) {
        var i :| 0 <= i < |ranges| && ranges[i].start <= x <= ranges[i].end;
        assert r[i].start <= x <= r[i].end;
      }
      if x != c && InRanges(r, x) {
        var i :| 0 <= i < |r| && r[i].start <= x <= r[i].end;
        assert ranges[i].start <= x <= ranges[i].end;
      }
    }
  }

  ghost predicate Printed(cpus: set<nat>, r: string) {
    exists ranges :: MaximalRuns(ranges, cpus) && r == Join(PrintRanges(ranges), ',')
  }

  // String: the runs, each followed by a comma, and the last comma trimmed.
  method Print(cpus: set<nat>) returns (r: string)
    ensures Printed(cpus, r)
  {
    if cpus == {} {
      assert MaximalRuns([], cpus) && PrintRanges([]) == [];
      return "";
    }
    var elems := ToSlice(cpus);
    assert elems != [];
    var runs := Gather(elems);
    var buffer := "";
    assert runs[..0] == [];
    for n := 0 to |runs|
      invariant buffer == Terminated(PrintRanges(runs[..n]), ',')
    {
      assert PrintRanges(runs[..n + 1])[..n] == PrintRanges(runs[..n]);
      if runs[n].start == runs[n].end {
        buffer := buffer + Itoa(runs[n].start);
      } else {
        buffer := buffer + (Itoa(runs[n].start) + "-" + Itoa(runs[n].end));
      }
      buffer := buffer + ",";
    }
    assert runs[..|runs|] == runs;
    r := TrimRight(buffer, ',');
    Printable(runs);
    TrimTerminated(PrintRanges(runs), ',');
  }

  lemma Printable(ranges: seq<Range>)
    ensures forall p :: p in PrintRanges(ranges) ==> p != "" && ',' !in p
  {
    forall p | p in PrintRanges(ranges) ensures p != "" && ',' !in p {
      var i :| 0 <= i < |ranges| && p == PrintRange(ranges[i]);
      DigitsOnly(ranges[i].start, ',');
      DigitsOnly(ranges[i].end, ',');
    }
  }

  lemma DigitsOnly(n: nat, c: char)
    requires !IsDigit(c)
    ensures c !in Itoa(n)
  {
  }

  /* ---------- reading back ---------- */

  lemma PrintedRangeMeans(r: Range)
    requires r.start <= r.end < MAX_CPU_ID
    ensures Meaning(PrintRange(r)) == Some(Span(r.start, r.end))
  {
    AtoiItoa(r.start);
    AtoiItoa(r.end);
    DigitsOnly(r.start, '-');
    DigitsOnly(r.end, '-');
    SplitFirst(Itoa(r.start), Itoa(r.end), '-');
    SplitFirst(Itoa(r.end), "", '-');
    if r.start == r.end {
      assert Span(r.start, r.end) == {r.start};
    } else {
      assert Split(PrintRange(r), '-') == [Itoa(r.start), Itoa(r.end)];
    }
  }

  ghost predicate CoveredBy(ranges: seq<Range>, cpus: set<nat>) {
    forall c: nat :: c in cpus <==> InRanges(ranges, c)
  }

  lemma {:induction false} PrintedRangesMean(ranges: seq<Range>)
    requires forall i :: 0 <= i < |ranges| ==> ranges[i].start <= ranges[i].end < MAX_CPU_ID
    ensures MeaningAll(PrintRanges(ranges)).Some? && CoveredBy(ranges, MeaningAll(PrintRanges(ranges)).value)
  {
    if ranges != [] {
      var n := |ranges| - 1;
      var init := ranges[..n];
      PrintedRangesMean(init);
      PrintedRangeMeans(ranges[n]);
      assert PrintRanges(ranges)[..n] == PrintRanges(init);
      CoverOneMore(ranges, MeaningAll(PrintRanges(init)).value);
    }
  }

  lemma CoverOneMore(ranges: seq<Range>, cpus: set<nat>)
    requires ranges != [] && CoveredBy(ranges[..|ranges| - 1], cpus)
    ensures CoveredBy(ranges, cpus + Span(ranges[|ranges| - 1].start, ranges[|ranges| - 1].end))
  {
    var n := |ranges| - 1;
    forall c: nat ensures c in cpus + Span(ranges[n].start, ranges[n].end) <==> InRanges(ranges, c) {
      if InRanges(ranges[..n], c) {
        var i :| 0 <= i < n && ranges[..n][i].start <= c <= ranges[..n][i].end;
        assert ranges[i].start <= c <= ranges[i].end;
      }
      if InRanges(ranges, c) && !(ranges[n].start <= c <= ranges[n].end) {
        var i :| 0 <= i < |ranges| && ranges[i].start <= c <= ranges[i].end;
        assert ranges[..n][i] == ranges[i];
      }
    }
  }

  // What is printed for a set of CPUs below the limit reads back as that set.
  lemma RoundTrip(ranges: seq<Range>, cpus: set<nat>)
    requires MaximalRuns(ranges, cpus) && forall c :: c in cpus ==> c < MAX_CPU_ID
    ensures ListMeaning(Join(PrintRanges(ranges), ',')) == Some(cpus)
  {
    if ranges == [] {
      assert cpus == {};
    } else {
      forall i | 0 <= i < |ranges| ensures ranges[i].end < MAX_CPU_ID {
        assert InRanges(ranges, ranges[i].end);
      }
      Printable(ranges);
      SplitJoin(PrintRanges(ranges), ',');
      PrintedRangesMean(ranges);
      assert MeaningAll(PrintRanges(ranges)).value == cpus;
      assert Join(PrintRanges(ranges), ',') != "" by {
        assert PrintRanges(ranges)[0] in PrintRanges(ranges);
      }
    }
  }

  method PrintThenParse(cpus: set<nat>) returns (back: Option<set<nat>>)
    requires forall c :: c in cpus ==> c < MAX_CPU_ID
    ensures back == Some(cpus)
  {
    var r := Print(cpus);
    ghost var ranges :| MaximalRuns(ranges, cpus) && r == Join(PrintRanges(ranges), ',');
    RoundTrip(ranges, cpus);
    back := Parse(r);
  }
}
