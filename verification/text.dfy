// The few operations of Go's strings and strconv packages that the model needs, on ASCII characters.
module Text {
  import opened DisruptionTypes

  function LowerChar(c: char): char {
    if 'A' <= c <= 'Z' then (c as int + 32) as char else c
  }

  function UpperChar(c: char): char {
    if 'a' <= c <= 'z' then (c as int - 32) as char else c
  }

  function ToLower(s: string): (r: string)
    ensures |r| == |s| && forall i :: 0 <= i < |s| ==> r[i] == LowerChar(s[i])
  {
    seq(|s|, i requires 0 <= i < |s| => LowerChar(s[i]))
  }

  function ToUpper(s: string): (r: string)
    ensures |r| == |s| && forall i :: 0 <= i < |s| ==> r[i] == UpperChar(s[i])
  {
    seq(|s|, i requires 0 <= i < |s| => UpperChar(s[i]))
  }

  /* ---------- splitting and joining ---------- */

  function Split(s: string, sep: char): (r: seq<string>)
    ensures |r| >= 1
  {
    if s == "" then [""] else
      var rest := Split(s[1..], sep);
      if s[0] == sep then [""] + rest else [[s[0]] + rest[0]] + rest[1..]
  }

  function Join(parts: seq<string>, sep: char): string {
    if parts == [] then "" else if |parts| == 1 then parts[0] else parts[0] + [sep] + Join(parts[1..], sep)
  }

  lemma {:induction false} SplitFirst(a: string, rest: string, sep: char)
    requires sep !in a
    ensures Split(a, sep) == [a]
    ensures Split(a + [sep] + rest, sep) == [a] + Split(rest, sep)
  {
    var s := a + [sep] + rest;
    if a == "" {
      assert s[1..] == rest;
    } else {
      SplitFirst(a[1..], rest, sep);
      assert s[1..] == a[1..] + [sep] + rest;
      assert a == [a[0]] + a[1..];
    }
  }

  lemma {:induction false} SplitJoin(parts: seq<string>, sep: char)
    requires parts != [] && forall p :: p in parts ==> sep !in p
    ensures Split(Join(parts, sep), sep) == parts
  {
    assert parts[0] in parts && parts == [parts[0]] + parts[1..];
    if |parts| == 1 {
      SplitFirst(parts[0], "", sep);
    } else {
      SplitJoin(parts[1..], sep);
      SplitFirst(parts[0], Join(parts[1..], sep), sep);
    }
  }

  // Every part followed by the separator.
  function Terminated(parts: seq<string>, sep: char): string {
    if parts == [] then "" else Terminated(parts[..|parts| - 1], sep) + parts[|parts| - 1] + [sep]
  }

  function TrimRight(s: string, c: char): string {
    if s != "" && s[|s| - 1] == c then TrimRight(s[..|s| - 1], c) else s
  }

  lemma {:induction false} TerminatedFirst(parts: seq<string>, sep: char)
    requires parts != []
    ensures Terminated(parts, sep) == parts[0] + [sep] + Terminated(parts[1..], sep)
  {
    var n := |parts| - 1;
    if n == 0 {
      assert parts[..0] == [] && parts[1..] == [];
    } else {
      TerminatedFirst(parts[..n], sep);
      assert parts[..n][1..] == parts[1..][..n - 1];
      Regroup(parts[0] + [sep], Terminated(parts[1..][..n - 1], sep), parts[n] + [sep]);
      Regroup(Terminated(parts[1..][..n - 1], sep), parts[n], [sep]);
      Regroup(Terminated(parts[..n], sep), parts[n], [sep]);
    }
  }

  lemma Regroup(a: string, b: string, c: string)
    ensures a + (b + c) == (a + b) + c
  {
  }

  lemma {:induction false} JoinLast(parts: seq<string>, sep: char)
    requires parts != []
    ensures Join(parts, sep) == Terminated(parts[..|parts| - 1], sep) + parts[|parts| - 1]
  {
    var n := |parts| - 1;
    if n == 0 {
      assert parts[..0] == [];
    } else {
      JoinLast(parts[1..], sep);
      TerminatedFirst(parts[..n], sep);
      assert parts[..n][1..] == parts[1..][..n - 1];
      Regroup(parts[0] + [sep], Terminated(parts[1..][..n - 1], sep), parts[n]);
    }
  }

  lemma TrimTerminated(parts: seq<string>, sep: char)
    requires parts != [] && forall p :: p in parts ==> p != "" && sep !in p
    ensures TrimRight(Terminated(parts, sep), sep) == Join(parts, sep)
  {
    JoinLast(parts, sep);
    var last := parts[|parts| - 1];
    assert last in parts && last[|last| - 1] in last;
    var s := Terminated(parts, sep);
    assert s[..|s| - 1] == Join(parts, sep);
    assert Join(parts, sep)[|Join(parts, sep)| - 1] == last[|last| - 1];
  }

  /* ---------- trimming and suffixes ---------- */

  predicate IsSpace(c: char) {
    c == ' ' || '\t' <= c <= '\r'
  }

  function TrimSpaceLeft(s: string): string {
    if s != "" && IsSpace(s[0]) then TrimSpaceLeft(s[1..]) else s
  }

  function TrimSpaceRight(s: string): string {
    if s != "" && IsSpace(s[|s| - 1]) then TrimSpaceRight(s[..|s| - 1]) else s
  }

  function TrimSpace(s: string): string {
    TrimSpaceRight(TrimSpaceLeft(s))
  }

  predicate HasSuffix(s: string, suffix: string) {
    |suffix| <= |s| && s[|s| - |suffix|..] == suffix
  }

  function TrimSuffix(s: string, suffix: string): string {
    if HasSuffix(s, suffix) then s[..|s| - |suffix|] else s
  }

  /* ---------- decimal numbers ---------- */

  const INT64_LIMIT := 0x8000_0000_0000_0000

  predicate IsDigit(c: char) {
    '0' <= c <= '9'
  }

  function DigitValue(c: char): nat
    requires IsDigit(c)
  {
    c as int - '0' as int
  }

  predicate AllDigits(s: string) {
    forall i :: 0 <= i < |s| ==> IsDigit(s[i])
  }

  function Decimal(s: string): nat
    requires AllDigits(s)
  {
    if s == "" then 0 else
      Decimal(s[..|s| - 1]) * 10 + DigitValue(s[|s| - 1])
  }

  function Itoa(n: nat): (r: string)
    ensures r != "" && AllDigits(r)
  {
    var digit := (n % 10 + '0' as int) as char;
    if n < 10 then [digit] else Itoa(n / 10) + [digit]
  }

  function Atoi(s: string): Option<int> {
    var body := if s != "" && (s[0] == '+' || s[0] == '-') then s[1..] else s;
    if body == "" || !AllDigits(body) then None else
      var n: int := if s[0] == '-' then -(Decimal(body) as int) else Decimal(body);
      if -INT64_LIMIT <= n < INT64_LIMIT then Some(n) else None
  }

  lemma {:induction false} DecimalItoa(n: nat)
    ensures Decimal(Itoa(n)) == n
  {
    var digit := (n % 10 + '0' as int) as char;
    if n < 10 {
      assert [digit][..0] == "";
    } else {
      DecimalItoa(n / 10);
      assert (Itoa(n / 10) + [digit])[..|Itoa(n / 10)|] == Itoa(n / 10);
    }
  }

  lemma AtoiItoa(n: nat)
    requires n < INT64_LIMIT
    ensures Atoi(Itoa(n)) == Some(n)
    ensures '-' !in Itoa(n) && ',' !in Itoa(n)
  {
    DecimalItoa(n);
    assert IsDigit(Itoa(n)[0]);
  }
}
